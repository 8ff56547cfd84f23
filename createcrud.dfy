/** The text logic of the `createcrud` management command: which classes of
    a models file are Django models, where the app directory is, the names
    and `__init__` texts of the generated modules, the app's URL module, its
    app configuration, and the insertion of the app into the project's
    `LOCAL_APPS` and `urlpatterns` lists. */
module CreateCrud {
  import opened Common

  // ---------------------------------------------------------------------------
  // The syntax tree of a models file

  /** The expressions that can name a base class. */
  datatype Expr = Name(id: string) | Attribute(value: Expr, attr: string) | OtherExpr

  /** Statement nodes. Expression nodes never hold a class definition, so
      they are left out of the tree; every other statement kind is
      `OtherNode` with its nested statements. */
  datatype Node =
    | ClassDef(name: string, bases: seq<Expr>, body: seq<Node>)
    | OtherNode(children: seq<Node>)

  function Children(n: Node): seq<Node> {
    match n
    case ClassDef(_, _, body) => body
    case OtherNode(children) => children
  }

  function Size(n: Node): nat
    decreases n, 1
  {
    1 + SizeAll(Children(n))
  }

  function SizeAll(ns: seq<Node>): nat
    decreases ns, 0
  {
    if ns == [] then 0 else Size(ns[0]) + SizeAll(ns[1..])
  }

  lemma {:induction false} SizeAllAppend(a: seq<Node>, b: seq<Node>)
    ensures SizeAll(a + b) == SizeAll(a) + SizeAll(b)
    decreases |a|
  {
    if a == [] {
      assert a + b == b;
    } else {
      assert (a + b)[0] == a[0] && (a + b)[1..] == a[1..] + b;
      SizeAllAppend(a[1..], b);
    }
  }

  /** `ast.walk` from the nodes still to visit: the first is yielded and its
      children go to the back of the queue (breadth first). */
  function WalkAll(todo: seq<Node>): seq<Node>
    decreases SizeAll(todo)
  {
    if todo == [] then []
    else
      SizeAllAppend(todo[1..], Children(todo[0]));
      assert SizeAll(todo) == 1 + SizeAll(Children(todo[0])) + SizeAll(todo[1..]);
      [todo[0]] + WalkAll(todo[1..] + Children(todo[0]))
  }

  function Walk(tree: Node): seq<Node> {
    WalkAll([tree])
  }

  /** `d` is `t` or a node nested in it. */
  predicate Within(d: Node, t: Node)
    decreases t
  {
    d == t || exists i :: 0 <= i < |Children(t)| && Within(d, Children(t)[i])
  }

  lemma WithinChild(d: Node, t: Node, i: nat)
    requires i < |Children(t)| && Within(d, Children(t)[i])
    ensures Within(d, t)
  {
  }

  /** The walk visits every node of the queued trees. */
  lemma {:induction false} WalkAllCovers(todo: seq<Node>, k: nat, d: Node)
    requires k < |todo| && Within(d, todo[k])
    ensures d in WalkAll(todo)
    decreases SizeAll(todo)
  {
    var rest := todo[1..] + Children(todo[0]);
    SizeAllAppend(todo[1..], Children(todo[0]));
    assert SizeAll(todo) == 1 + SizeAll(Children(todo[0])) + SizeAll(todo[1..]);
    assert WalkAll(todo) == [todo[0]] + WalkAll(rest);
    if k > 0 {
      assert rest[k - 1] == todo[k];
      WalkAllCovers(rest, k - 1, d);
    } else if d != todo[0] {
      var i :| 0 <= i < |Children(todo[0])| && Within(d, Children(todo[0])[i]);
      assert rest[|todo| - 1 + i] == Children(todo[0])[i];
      WalkAllCovers(rest, |todo| - 1 + i, d);
    }
  }

  /** Every node the walk visits belongs to one of the queued trees. */
  lemma {:induction false} WalkAllSound(todo: seq<Node>, d: Node) returns (k: nat)
    requires d in WalkAll(todo)
    ensures k < |todo| && Within(d, todo[k])
    decreases SizeAll(todo)
  {
    var rest := todo[1..] + Children(todo[0]);
    SizeAllAppend(todo[1..], Children(todo[0]));
    assert SizeAll(todo) == 1 + SizeAll(Children(todo[0])) + SizeAll(todo[1..]);
    assert WalkAll(todo) == [todo[0]] + WalkAll(rest);
    if d == todo[0] {
      k := 0;
    } else {
      var k' := WalkAllSound(rest, d);
      if k' < |todo| - 1 {
        assert rest[k'] == todo[k' + 1];
        k := k' + 1;
      } else {
        assert Children(todo[0])[k' - (|todo| - 1)] == rest[k'];
        WithinChild(d, todo[0], k' - (|todo| - 1));
        k := 0;
      }
    }
  }

  /** `ast.walk` yields exactly the nodes of the tree. */
  lemma WalkVisits(tree: Node, d: Node)
    ensures d in Walk(tree) <==> Within(d, tree)
  {
    if d in Walk(tree) {
      var k := WalkAllSound([tree], d);
    }
    if Within(d, tree) {
      WalkAllCovers([tree], 0, d);
    }
  }

  /** A base that makes a class a model: `models.Model` or a bare `Model`. */
  predicate IsModelBase(b: Expr) {
    || (b.Attribute? && b.value.Name? && b.value.id == "models" && b.attr == "Model")
    || (b.Name? && b.id == "Model")
  }

  predicate IsModel(n: Node) {
    n.ClassDef? && exists k :: 0 <= k < |n.bases| && IsModelBase(n.bases[k])
  }

  /** The `model_classes` dictionary after the classes among `nodes`, in
      order: its keys in insertion order, and the class stored under each.
      A later class of the same name replaces the stored class but keeps the
      key's place. */
  function Collect(nodes: seq<Node>): (r: (seq<string>, map<string, Node>))
    ensures forall i, j :: 0 <= i < j < |r.0| ==> r.0[i] != r.0[j]
    ensures forall k :: k in r.0 <==> k in r.1
    ensures forall k :: k in r.1 ==> IsModel(r.1[k]) && r.1[k].name == k
  {
    if nodes == [] then ([], map[])
    else
      var (keys, classes) := Collect(nodes[..|nodes| - 1]);
      var n := nodes[|nodes| - 1];
      if IsModel(n) then
        (if n.name in classes then keys else keys + [n.name], classes[n.name := n])
      else (keys, classes)
  }

  /** `extract_models` on a parsed file: every class in the walk with a
      model base is stored under its name, the first matching base being
      enough. */
  method ExtractModels(tree: Node) returns (keys: seq<string>, classes: map<string, Node>)
    ensures (keys, classes) == Collect(Walk(tree))
  {
    var nodes := Walk(tree);
    keys := [];
    classes := map[];
    for i := 0 to |nodes|
      invariant (keys, classes) == Collect(nodes[..i])
    {
      var node := nodes[i];
      assert nodes[..i + 1][..i] == nodes[..i];
      if node.ClassDef? {
        var j := 0;
        while j < |node.bases|
          invariant 0 <= j <= |node.bases|
          invariant forall k :: 0 <= k < j ==> !IsModelBase(node.bases[k])
        {
          var baseName := if IsModelBase(node.bases[j]) then Some("Model") else None;
          if baseName.Some? {
            if node.name !in classes {
              keys := keys + [node.name];
            }
            classes := classes[node.name := node];
            break;
          }
          j := j + 1;
        }
      }
    }
    assert nodes[..|nodes|] == nodes;
  }

  /** The names stored are those of the model classes among the nodes. */
  lemma {:induction false} CollectHolds(nodes: seq<Node>, name: string)
    ensures name in Collect(nodes).1 <==> exists i :: 0 <= i < |nodes| && IsModel(nodes[i]) && nodes[i].name == name
    decreases |nodes|
  {
    if nodes != [] {
      var init := nodes[..|nodes| - 1];
      CollectHolds(init, name);
      if exists i :: 0 <= i < |init| && IsModel(init[i]) && init[i].name == name {
        var i :| 0 <= i < |init| && IsModel(init[i]) && init[i].name == name;
        assert nodes[i] == init[i];
      }
      if exists i :: 0 <= i < |nodes| && IsModel(nodes[i]) && nodes[i].name == name {
        var i :| 0 <= i < |nodes| && IsModel(nodes[i]) && nodes[i].name == name;
        if i < |init| {
          assert init[i] == nodes[i];
        }
      }
    }
  }

  /** Of several model classes with one name, the last one is stored. */
  lemma {:induction false} CollectKeepsLast(nodes: seq<Node>, j: nat)
    requires j < |nodes| && IsModel(nodes[j])
    requires forall k :: j < k < |nodes| ==> !(IsModel(nodes[k]) && nodes[k].name == nodes[j].name)
    ensures nodes[j].name in Collect(nodes).1 && Collect(nodes).1[nodes[j].name] == nodes[j]
    decreases |nodes|
  {
    var init := nodes[..|nodes| - 1];
    if j < |nodes| - 1 {
      assert init[j] == nodes[j];
      CollectKeepsLast(init, j);
    }
  }

  /** A name is a key of `model_classes` exactly when the file defines a
      class of that name, at any depth, with a model base. */
  lemma ModelsFound(tree: Node, name: string)
    ensures name in Collect(Walk(tree)).1 <==>
      exists d :: Within(d, tree) && IsModel(d) && d.name == name
  {
    var nodes := Walk(tree);
    CollectHolds(nodes, name);
    if name in Collect(nodes).1 {
      var i :| 0 <= i < |nodes| && IsModel(nodes[i]) && nodes[i].name == name;
      WalkVisits(tree, nodes[i]);
    }
    if exists d :: Within(d, tree) && IsModel(d) && d.name == name {
      var d :| Within(d, tree) && IsModel(d) && d.name == name;
      WalkVisits(tree, d);
      var i :| 0 <= i < |nodes| && nodes[i] == d;
    }
  }

  // ---------------------------------------------------------------------------
  // Paths and names

  /** A relative path as its components. */
  type Path = seq<string>

  function Parent(p: Path): Path {
    if p == [] then [] else p[..|p| - 1]
  }

  function BaseName(p: Path): string {
    if p == [] then "" else p[|p| - 1]
  }

  /** The app directory of a models file: the directory holding it, or the
      one above when that directory is a `models` package. */
  function AppDir(modelsFile: Path): (dir: Path)
    ensures |dir| <= |modelsFile| && dir == modelsFile[..|dir|]
    ensures |modelsFile| >= 2 && modelsFile[|modelsFile| - 2] == "models" ==> |dir| == |modelsFile| - 2
    ensures |modelsFile| >= 1 && !(|modelsFile| >= 2 && modelsFile[|modelsFile| - 2] == "models") ==>
      |dir| == |modelsFile| - 1
  {
    var parent := Parent(modelsFile);
    if BaseName(parent) == "models" then Parent(parent) else parent
  }

  /** The three generated layers. */
  datatype Layer = Serializers | Views | Services

  function Package(l: Layer): string {
    match l
    case Serializers => "serializers"
    case Views => "views"
    case Services => "services"
  }

  function ModuleSuffix(l: Layer): string {
    match l
    case Serializers => "_serializer"
    case Views => "_viewset"
    case Services => "_service"
  }

  function ClassSuffix(l: Layer): string {
    match l
    case Serializers => "Serializer"
    case Views => "ViewSet"
    case Services => "Service"
  }

  /** The module generated for a model in a layer. */
  function FileName(l: Layer, model: string): string {
    Lower(model) + ModuleSuffix(l) + ".py"
  }

  /** Two models share a generated file exactly when their names agree up to
      case. */
  lemma FileNamesCollideIff(l: Layer, a: string, b: string)
    ensures FileName(l, a) == FileName(l, b) <==> Lower(a) == Lower(b)
  {
    if FileName(l, a) == FileName(l, b) {
      assert |Lower(a)| == |Lower(b)|;
      assert Lower(a) == FileName(l, a)[..|Lower(a)|];
      assert Lower(b) == FileName(l, b)[..|Lower(b)|];
    }
  }

  // ---------------------------------------------------------------------------
  // `__init__.py` of a layer

  const AllOpen := "__all__ = ["

  function InitHeader(l: Layer): string {
    "\"\"\"Auto-generated " + (match l case Serializers => "serializers" case Views => "viewsets" case Services => "services") + ".\"\"\""
  }

  function ImportLine(l: Layer, model: string): string {
    "from ." + Lower(model) + ModuleSuffix(l) + " import " + model + ClassSuffix(l)
  }

  function ExportLine(l: Layer, model: string): string {
    "    '" + model + ClassSuffix(l) + "',"
  }

  function ImportLines(l: Layer, models: seq<string>): (r: seq<string>)
    ensures |r| == |models| && forall i :: 0 <= i < |models| ==> r[i] == ImportLine(l, models[i])
  {
    seq(|models|, i requires 0 <= i < |models| => ImportLine(l, models[i]))
  }

  function ExportLines(l: Layer, models: seq<string>): (r: seq<string>)
    ensures |r| == |models| && forall i :: 0 <= i < |models| ==> r[i] == ExportLine(l, models[i])
  {
    seq(|models|, i requires 0 <= i < |models| => ExportLine(l, models[i]))
  }

  /** The lines of a layer's `__init__.py`: a docstring, a blank line, one
      import per model, a blank line, and `__all__` listing the same classes
      in the same order. */
  function InitLines(l: Layer, models: seq<string>): seq<string> {
    [InitHeader(l), ""] + ImportLines(l, models) + ["", AllOpen] + ExportLines(l, models) + ["]"]
  }

  /** The `__init__.py` text, built the way the command builds it. */
  method BuildInit(l: Layer, models: seq<string>) returns (content: string)
    ensures content == Unlines(InitLines(l, models))
  {
    ghost var head := [InitHeader(l), ""];
    ghost var all := ["", AllOpen];
    UnlinesPair(InitHeader(l), "");
    content := InitHeader(l) + "\n" + "" + "\n";
    content := AppendImports(content, l, models);
    UnlinesAppend(head, ImportLines(l, models));
    UnlinesPair("", AllOpen);
    content := content + "" + "\n" + AllOpen + "\n";
    assert content == Unlines(head + ImportLines(l, models)) + Unlines(all);
    UnlinesAppend(head + ImportLines(l, models), all);
    content := AppendExports(content, l, models);
    UnlinesAppend(head + ImportLines(l, models) + all, ExportLines(l, models));
    UnlinesOne("]");
    content := content + "]" + "\n";
    assert content == Unlines(head + ImportLines(l, models) + all + ExportLines(l, models)) + Unlines(["]"]);
    UnlinesAppend(head + ImportLines(l, models) + all + ExportLines(l, models), ["]"]);
  }

  /** The first loop of the `__init__.py` text: one import line per model. */
  method AppendImports(prefix: string, l: Layer, models: seq<string>) returns (content: string)
    ensures content == prefix + Unlines(ImportLines(l, models))
  {
    content := prefix;
    for i := 0 to |models|
      invariant content == prefix + Unlines(ImportLines(l, models[..i]))
    {
      var line := "from ." + Lower(models[i]) + ModuleSuffix(l) + " import " + models[i] + ClassSuffix(l);
      ghost var done := ImportLines(l, models[..i]);
      ImportLinesSnoc(l, models, i);
      UnlinesSnoc(prefix, done, line);
      content := content + line + "\n";
    }
    assert models[..|models|] == models;
  }

  lemma ImportLinesSnoc(l: Layer, models: seq<string>, i: nat)
    requires i < |models|
    ensures ImportLines(l, models[..i + 1]) == ImportLines(l, models[..i]) + [ImportLine(l, models[i])]
  {
  }

  /** The second loop: one `__all__` entry per model. */
  method AppendExports(prefix: string, l: Layer, models: seq<string>) returns (content: string)
    ensures content == prefix + Unlines(ExportLines(l, models))
  {
    content := prefix;
    for i := 0 to |models|
      invariant content == prefix + Unlines(ExportLines(l, models[..i]))
    {
      var line := "    '" + models[i] + ClassSuffix(l) + "',";
      ghost var done := ExportLines(l, models[..i]);
      ExportLinesSnoc(l, models, i);
      UnlinesSnoc(prefix, done, line);
      content := content + line + "\n";
    }
    assert models[..|models|] == models;
  }

  lemma ExportLinesSnoc(l: Layer, models: seq<string>, i: nat)
    requires i < |models|
    ensures ExportLines(l, models[..i + 1]) == ExportLines(l, models[..i]) + [ExportLine(l, models[i])]
  {
  }

  lemma LowerKeepsBreaks(m: string)
    requires '\n' !in m
    ensures '\n' !in Lower(m)
  {
  }

  lemma SuffixesNoBreak(l: Layer)
    ensures '\n' !in ModuleSuffix(l) && '\n' !in ClassSuffix(l)
  {
    match l
    case Serializers =>
    case Views =>
    case Services =>
  }

  /** A model name without line breaks gives import and export lines
      without line breaks. */
  lemma LayerLinesNoBreaks(l: Layer, m: string)
    requires '\n' !in m
    ensures '\n' !in ImportLine(l, m) && '\n' !in ExportLine(l, m)
  {
    LowerKeepsBreaks(m);
    SuffixesNoBreak(l);
    var ms, cs, lm := ModuleSuffix(l), ClassSuffix(l), Lower(m);
    assert ImportLine(l, m) == "from ." + lm + ms + " import " + m + cs;
    assert ExportLine(l, m) == "    '" + m + cs + "',";
    assert '\n' !in "from ." && '\n' !in " import " && '\n' !in "    '" && '\n' !in "',";
  }

  lemma InitLinesNoBreaks(l: Layer, models: seq<string>)
    requires forall i :: 0 <= i < |models| ==> '\n' !in models[i]
    ensures NoBreaks(InitLines(l, models))
  {
    forall i | 0 <= i < |models|
      ensures '\n' !in ImportLine(l, models[i]) && '\n' !in ExportLine(l, models[i])
    {
      LayerLinesNoBreaks(l, models[i]);
    }
    var imports := ImportLines(l, models);
    var exports := ExportLines(l, models);
    assert NoBreaks(imports) && NoBreaks(exports);
    assert '\n' !in InitHeader(l);
    assert NoBreaks([InitHeader(l), ""]) && NoBreaks(["", "__all__ = ["]) && NoBreaks(["]"]);
    NoBreaksJoin([InitHeader(l), ""], imports);
    NoBreaksJoin([InitHeader(l), ""] + imports, ["", "__all__ = ["]);
    NoBreaksJoin([InitHeader(l), ""] + imports + ["", "__all__ = ["], exports);
    NoBreaksJoin([InitHeader(l), ""] + imports + ["", "__all__ = ["] + exports, ["]"]);
  }

  /** Read back line by line, a layer's `__init__.py` holds, after its two
      opening lines, one import per model and then, after two more lines,
      one `__all__` entry per model, both in the order of the models. */
  lemma InitListsEveryModel(l: Layer, models: seq<string>)
    requires forall i :: 0 <= i < |models| ==> '\n' !in models[i]
    ensures var ls := Lines(Unlines(InitLines(l, models)));
      && |ls| == 2 * |models| + 5
      && (forall i :: 0 <= i < |models| ==> ls[2 + i] == ImportLine(l, models[i]))
      && (forall i :: 0 <= i < |models| ==> ls[|models| + 4 + i] == ExportLine(l, models[i]))
      && ls[|models| + 3] == "__all__ = [" && ls[2 * |models| + 4] == "]"
  {
    InitLinesNoBreaks(l, models);
    LinesUnlines(InitLines(l, models));
    InitImportsAt(l, models);
    InitExportsAt(l, models);
    InitFrame(l, models);
  }

  lemma InitImportsAt(l: Layer, models: seq<string>)
    ensures forall i :: 0 <= i < |models| ==> InitLines(l, models)[2 + i] == ImportLine(l, models[i])
  {
  }

  lemma InitExportsAt(l: Layer, models: seq<string>)
    ensures forall i :: 0 <= i < |models| ==> InitLines(l, models)[|models| + 4 + i] == ExportLine(l, models[i])
  {
  }

  lemma InitFrame(l: Layer, models: seq<string>)
    ensures |InitLines(l, models)| == 2 * |models| + 5
    ensures InitLines(l, models)[|models| + 3] == "__all__ = ["
    ensures InitLines(l, models)[2 * |models| + 4] == "]"
  {
    assert InitLines(l, models)[|models| + 3] == "__all__ = [";
  }

  // ---------------------------------------------------------------------------
  // The app's `urls.py`

  function Route(model: string): string {
    Lower(model) + "s"
  }

  function RegisterLine(model: string): string {
    "router.register(r'" + Route(model) + "', " + model + "ViewSet, basename='" + Lower(model) + "')"
  }

  function ViewSetLine(model: string): string {
    "    " + model + "ViewSet,"
  }

  function UrlsHead(app: string): seq<string> {
    ["\"\"\"URL routes for " + app + " app.\"\"\"", "",
     "from django.urls " + "import path, include",
     "from rest_framework." + "routers import DefaultRouter",
     "from apps." + app + ".views import ("]
  }

  const RouterLines: seq<string> := [")", "", "router = DefaultRouter()"]

  function UrlsTail(app: string): seq<string> {
    ["", "app_name = '" + app + "'", "", "urlpatterns = [", "    path(''" + ", include(router.urls)),", "]"]
  }

  function ViewSetLines(models: seq<string>): (r: seq<string>)
    ensures |r| == |models| && forall i :: 0 <= i < |models| ==> r[i] == ViewSetLine(models[i])
  {
    seq(|models|, i requires 0 <= i < |models| => ViewSetLine(models[i]))
  }

  function RegisterLines(models: seq<string>): (r: seq<string>)
    ensures |r| == |models| && forall i :: 0 <= i < |models| ==> r[i] == RegisterLine(models[i])
  {
    seq(|models|, i requires 0 <= i < |models| => RegisterLine(models[i]))
  }

  /** The lines of the generated `urls.py`: the imports naming every
      viewset, then one router registration per model, in the models'
      order. */
  function UrlsLines(app: string, models: seq<string>): seq<string> {
    UrlsHead(app) + ViewSetLines(models) + RouterLines + RegisterLines(models) + UrlsTail(app)
  }

  /** `generate_urls`'s text, built the way the command builds it: the
      fixed head, a loop over the viewsets, the router, a loop over the
      registrations and the fixed tail. */
  method BuildUrls(app: string, models: seq<string>) returns (content: string)
    ensures content == Unlines(UrlsLines(app, models))
  {
    content := Unlines(UrlsHead(app));
    content := AppendViewSets(content, models);
    content := content + Unlines(RouterLines);
    content := AppendRegistrations(content, models);
    content := content + Unlines(UrlsTail(app));
    var h, v, r, g, t := UrlsHead(app), ViewSetLines(models), RouterLines, RegisterLines(models), UrlsTail(app);
    UnlinesAppend(h + v + r + g, t);
    UnlinesAppend(h + v + r, g);
    UnlinesAppend(h + v, r);
    UnlinesAppend(h, v);
  }

  method AppendViewSets(prefix: string, models: seq<string>) returns (content: string)
    ensures content == prefix + Unlines(ViewSetLines(models))
  {
    content := prefix;
    for i := 0 to |models|
      invariant content == prefix + Unlines(ViewSetLines(models[..i]))
    {
      var line := "    " + models[i] + "ViewSet,";
      ghost var done := ViewSetLines(models[..i]);
      assert ViewSetLines(models[..i + 1]) == done + [line];
      UnlinesSnoc(prefix, done, line);
      content := content + line + "\n";
    }
    assert models[..|models|] == models;
  }

  method AppendRegistrations(prefix: string, models: seq<string>) returns (content: string)
    ensures content == prefix + Unlines(RegisterLines(models))
  {
    content := prefix;
    for i := 0 to |models|
      invariant content == prefix + Unlines(RegisterLines(models[..i]))
    {
      var urlName := Lower(models[i]) + "s";
      var line := "router.register(r'" + urlName + "', " + models[i] + "ViewSet, basename='" + Lower(models[i]) + "')";
      ghost var done := RegisterLines(models[..i]);
      RegisterLinesSnoc(models, i);
      UnlinesSnoc(prefix, done, line);
      content := content + line + "\n";
    }
    assert models[..|models|] == models;
  }

  lemma RegisterLinesSnoc(models: seq<string>, i: nat)
    requires i < |models|
    ensures RegisterLines(models[..i + 1]) == RegisterLines(models[..i])
      + ["router.register(r'" + (Lower(models[i]) + "s") + "', " + models[i] + "ViewSet, basename='" + Lower(models[i]) + "')"]
  {
    assert RegisterLines(models[..i + 1])[i] == RegisterLine(models[i]);
  }

  lemma UrlsLinesNoBreaks(app: string, models: seq<string>)
    requires '\n' !in app
    requires forall i :: 0 <= i < |models| ==> '\n' !in models[i]
    ensures NoBreaks(UrlsLines(app, models))
  {
    var v := ViewSetLines(models);
    var g := RegisterLines(models);
    forall i | 0 <= i < |models|
      ensures '\n' !in v[i] && '\n' !in g[i]
    {
      LowerKeepsBreaks(models[i]);
    }
    UrlsHeadNoBreaks(app);
    UrlsTailNoBreaks(app);
    assert NoBreaks(RouterLines);
    NoBreaksJoin(UrlsHead(app), v);
    NoBreaksJoin(UrlsHead(app) + v, RouterLines);
    NoBreaksJoin(UrlsHead(app) + v + RouterLines, g);
    NoBreaksJoin(UrlsHead(app) + v + RouterLines + g, UrlsTail(app));
  }

  lemma UrlsHeadNoBreaks(app: string)
    requires '\n' !in app
    ensures NoBreaks(UrlsHead(app))
  {
    var h := UrlsHead(app);
    assert '\n' !in h[0] && '\n' !in h[1];
    assert '\n' !in h[2] && '\n' !in h[3];
    assert '\n' !in h[4];
  }

  lemma UrlsTailNoBreaks(app: string)
    requires '\n' !in app
    ensures NoBreaks(UrlsTail(app))
  {
  }

  /** Read back line by line, the generated `urls.py` imports every viewset
      and registers every model, once each and in order, under its
      lower-cased name plus "s" with its lower-cased name as the
      basename. */
  lemma UrlsRegisterEveryModel(app: string, models: seq<string>)
    requires '\n' !in app
    requires forall i :: 0 <= i < |models| ==> '\n' !in models[i]
    ensures var ls := Lines(Unlines(UrlsLines(app, models)));
      && |ls| == 2 * |models| + 14
      && (forall i :: 0 <= i < |models| ==> ls[5 + i] == ViewSetLine(models[i]))
      && (forall i :: 0 <= i < |models| ==> ls[|models| + 8 + i] == RegisterLine(models[i]))
  {
    UrlsLinesNoBreaks(app, models);
    LinesUnlines(UrlsLines(app, models));
    UrlsViewSetsAt(app, models);
    UrlsRegistrationsAt(app, models);
  }

  lemma UrlsViewSetsAt(app: string, models: seq<string>)
    ensures |UrlsLines(app, models)| == 2 * |models| + 14
    ensures forall i :: 0 <= i < |models| ==> UrlsLines(app, models)[5 + i] == ViewSetLine(models[i])
  {
  }

  lemma UrlsRegistrationsAt(app: string, models: seq<string>)
    ensures forall i :: 0 <= i < |models| ==> UrlsLines(app, models)[|models| + 8 + i] == RegisterLine(models[i])
  {
  }

  // ---------------------------------------------------------------------------
  // `apps.py`

  /** The lines of the generated `apps.py`. */
  function AppsConfigLines(app: string): seq<string> {
    AppsConfigHead(app) + [NameLine(app), "    label = '" + app + "'"]
  }

  function AppsConfigHead(app: string): seq<string> {
    ["from django.apps " + "import AppConfig", "", "",
     "class " + Capitalize(app) + "Config(AppConfig):",
     "    default_auto_field = " + "'django.db.models." + "BigAutoField'"]
  }

  function NameLine(app: string): string {
    "    name = " + AppEntry(app)
  }

  /** The entry `add_to_installed_apps` looks for and inserts. */
  function AppEntry(app: string): string {
    "'apps." + app + "'"
  }

  /** The generated configuration names the app by the very entry that is
      put into `LOCAL_APPS`. */
  lemma AppsConfigNamesEntry(app: string)
    ensures Contains(Unlines(AppsConfigLines(app)), AppEntry(app))
  {
    var head, labelLine := AppsConfigHead(app), "    label = '" + app + "'";
    UnlinesAppend(head, [NameLine(app), labelLine]);
    UnlinesPair(NameLine(app), labelLine);
    var pre := Unlines(head) + "    name = ";
    var post := "\n" + labelLine + "\n";
    assert Unlines(AppsConfigLines(app)) == pre + AppEntry(app) + post;
    assert OccursAt(AppEntry(app), AppEntry(app), 0);
    ContainsInMiddle(pre, AppEntry(app), post, AppEntry(app));
  }

  // ---------------------------------------------------------------------------
  // Inserting an entry into `NAME = [...]`

  /** `\s*` from `i`: the first index at or after `i` that is not
      white space. */
  function SkipSpace(s: string, i: nat): (j: nat)
    requires i <= |s|
    ensures i <= j <= |s|
    decreases |s| - i
  {
    if i == |s| || !IsSpace(s[i]) then i else SkipSpace(s, i + 1)
  }

  /** What `SkipSpace` skips is white space, and it stops at the end or at
      a character that is not. */
  lemma {:induction false} SkipSpaceSkipsSpace(s: string, i: nat)
    requires i <= |s|
    ensures forall k :: i <= k < SkipSpace(s, i) ==> IsSpace(s[k])
    ensures SkipSpace(s, i) == |s| || !IsSpace(s[SkipSpace(s, i)])
    decreases |s| - i
  {
    if i < |s| && IsSpace(s[i]) {
      SkipSpaceSkipsSpace(s, i + 1);
    }
  }

  /** `[^\]]*]` from `k`: the index of the first closing bracket at or after
      `k`, if any. */
  function CloseAt(s: string, k: nat): (c: Option<nat>)
    requires k <= |s|
    ensures c.Some? ==> k <= c.value < |s|
    decreases |s| - k
  {
    if k == |s| then None
    else if s[k] == ']' then Some(k)
    else CloseAt(s, k + 1)
  }

  /** The bracket found is a closing bracket and none comes before it. */
  lemma {:induction false} CloseAtFirst(s: string, k: nat)
    requires k <= |s|
    ensures CloseAt(s, k).Some? ==> s[CloseAt(s, k).value] == ']'
    ensures CloseAt(s, k).Some? ==> forall p :: k <= p < CloseAt(s, k).value ==> s[p] != ']'
    ensures CloseAt(s, k).None? ==> forall p :: k <= p < |s| ==> s[p] != ']'
    decreases |s| - k
  {
    if k < |s| && s[k] != ']' {
      CloseAtFirst(s, k + 1);
    }
  }

  /** A match of `(NAME\s*=\s*\[)([^\]]*)(])`: group 1 is `s[start..open]`,
      group 2 is `s[open..close]` and the closing bracket is `s[close]`. */
  datatype ListMatch = ListMatch(start: nat, open: nat, close: nat)

  /** The match starting at `i`, if any. */
  function MatchAt(s: string, name: string, i: nat): (m: Option<ListMatch>)
    requires i <= |s|
    ensures m.Some? ==> m.value.start == i && i + |name| < m.value.open <= m.value.close < |s|
  {
    if !OccursAt(s, name, i) then None
    else
      var j := SkipSpace(s, i + |name|);
      if j == |s| || s[j] != '=' then None
      else
        var k := SkipSpace(s, j + 1);
        if k == |s| || s[k] != '[' then None
        else match CloseAt(s, k + 1)
          case None => None
          case Some(c) => Some(ListMatch(i, k + 1, c))
  }

  /** The leftmost match at or after `i`. */
  function FindList(s: string, name: string, i: nat): (m: Option<ListMatch>)
    requires i <= |s|
    ensures m.Some? ==> i <= m.value.start < m.value.open <= m.value.close < |s|
    ensures m.Some? ==> MatchAt(s, name, m.value.start) == m
    decreases |s| - i
  {
    if MatchAt(s, name, i).Some? then MatchAt(s, name, i)
    else if i == |s| then None
    else FindList(s, name, i + 1)
  }

  /** The match found is the leftmost one, and none is found only when
      there is none. */
  lemma {:induction false} FindListLeftmost(s: string, name: string, i: nat)
    requires i <= |s|
    ensures var m := FindList(s, name, i);
      && (m.Some? ==> forall p :: i <= p < m.value.start ==> MatchAt(s, name, p).None?)
      && (m.None? ==> forall p :: i <= p <= |s| ==> MatchAt(s, name, p).None?)
    decreases |s| - i
  {
    if MatchAt(s, name, i).None? && i < |s| {
      FindListLeftmost(s, name, i + 1);
    }
  }

  /** What a match is replaced with. */
  datatype Edit =
    | AppendApp(entry: string)   // `add_app`: a blank list loses its white space
    | AppendUrl(entry: string)   // `add_url`

  /** The line inserted before the closing bracket. */
  function EntryLine(entry: string): string {
    "\n    " + entry + ",\n"
  }

  function Replacement(e: Edit, group1: string, group2: string): string {
    (if e.AppendApp? && Blank(group2) then group1 else group1 + group2) + EntryLine(e.entry) + "]"
  }

  /** A replacement holds the entry it inserts. */
  lemma ReplacementHoldsEntry(e: Edit, group1: string, group2: string)
    ensures Contains(Replacement(e, group1, group2), e.entry)
  {
    var kept := if e.AppendApp? && Blank(group2) then group1 else group1 + group2;
    assert Replacement(e, group1, group2) == (kept + "\n    ") + e.entry + (",\n" + "]");
    assert OccursAt(e.entry, e.entry, 0);
    ContainsInMiddle(kept + "\n    ", e.entry, ",\n" + "]", e.entry);
  }

  /** `re.sub` of the list pattern with `DOTALL`: every match, left to
      right, is replaced and the search goes on after it. */
  function SubLists(s: string, name: string, e: Edit): (r: string)
    decreases |s|, 1
  {
    SubListsAt(s, name, e, FindList(s, name, 0))
  }

  /** `SubLists` once the leftmost match is known. */
  function SubListsAt(s: string, name: string, e: Edit, found: Option<ListMatch>): (r: string)
    requires found.Some? ==> found.value.start < found.value.open <= found.value.close < |s|
    decreases |s|, 0
  {
    match found
    case None => s
    case Some(m) =>
      s[..m.start] + Replacement(e, s[m.start..m.open], s[m.open..m.close]) + SubLists(s[m.close + 1..], name, e)
  }

  /** With a list present the entry is in the result; without one the text
      is unchanged. */
  lemma SubListsInserts(s: string, name: string, e: Edit)
    ensures FindList(s, name, 0).None? ==> SubLists(s, name, e) == s
    ensures FindList(s, name, 0).Some? ==> Contains(SubLists(s, name, e), e.entry)
  {
    match FindList(s, name, 0)
    case None =>
      SubListsNone(s, name, e);
    case Some(m) =>
      SubListsStep(s, name, e, m);
      var rest := SubLists(s[m.close + 1..], name, e);
      var rep := Replacement(e, s[m.start..m.open], s[m.open..m.close]);
      ReplacementHoldsEntry(e, s[m.start..m.open], s[m.open..m.close]);
      ContainsInMiddle(s[..m.start], rep, rest, e.entry);
  }

  /** With exactly one match, the text around it is kept. */
  lemma SubListsOnce(s: string, name: string, e: Edit, m: ListMatch)
    requires FindList(s, name, 0) == Some(m)
    requires FindList(s[m.close + 1..], name, 0).None?
    ensures SubLists(s, name, e) == s[..m.start] + Replacement(e, s[m.start..m.open], s[m.open..m.close]) + s[m.close + 1..]
  {
    SubListsStep(s, name, e, m);
    SubListsNone(s[m.close + 1..], name, e);
  }

  lemma SubListsNone(s: string, name: string, e: Edit)
    requires FindList(s, name, 0).None?
    ensures SubLists(s, name, e) == s
  {
  }

  lemma SubListsStep(s: string, name: string, e: Edit, m: ListMatch)
    requires FindList(s, name, 0) == Some(m)
    ensures SubLists(s, name, e)
      == s[..m.start] + Replacement(e, s[m.start..m.open], s[m.open..m.close]) + SubLists(s[m.close + 1..], name, e)
  {
  }

  /** `add_to_installed_apps` on the text of the settings module. */
  function AddToInstalledApps(content: string, app: string): string {
    if Contains(content, AppEntry(app)) then content
    else SubLists(content, "LOCAL_APPS", AppendApp(AppEntry(app)))
  }

  /** Adding an app a second time changes nothing. */
  lemma InstalledAppsIdempotent(content: string, app: string)
    ensures AddToInstalledApps(AddToInstalledApps(content, app), app) == AddToInstalledApps(content, app)
  {
    SubListsInserts(content, "LOCAL_APPS", AppendApp(AppEntry(app)));
  }

  /** With one `LOCAL_APPS` list in the settings and the app not yet named,
      the entry goes on a line of its own just before the closing bracket
      and the rest of the text is kept; a list holding only white space
      loses it. */
  lemma InstalledAppsSingleList(content: string, app: string, m: ListMatch)
    requires !Contains(content, AppEntry(app))
    requires FindList(content, "LOCAL_APPS", 0) == Some(m)
    requires FindList(content[m.close + 1..], "LOCAL_APPS", 0).None?
    ensures AddToInstalledApps(content, app)
      == (if Strip(content[m.open..m.close]) == [] then content[..m.open] else content[..m.close])
         + EntryLine(AppEntry(app)) + content[m.close..]
  {
    StripEmptyIffBlank(content[m.open..m.close]);
    SingleListInsert(content, "LOCAL_APPS", AppendApp(AppEntry(app)), m);
  }

  /** With exactly one match, the entry's line goes just before its closing
      bracket; an `add_app` edit of a blank list drops the list's white
      space. */
  lemma SingleListInsert(s: string, name: string, e: Edit, m: ListMatch)
    requires FindList(s, name, 0) == Some(m)
    requires FindList(s[m.close + 1..], name, 0).None?
    ensures var blank := e.AppendApp? && Blank(s[m.open..m.close]);
      SubLists(s, name, e) == (if blank then s[..m.open] else s[..m.close]) + EntryLine(e.entry) + s[m.close..]
  {
    SubListsOnce(s, name, e, m);
    MatchCloses(s, name, m.start);
    MatchSpliced(s, m, e);
  }

  lemma ReplacementAround(pre: string, g1: string, g2: string, rest: string, e: Edit)
    ensures var blank := e.AppendApp? && Blank(g2);
      pre + Replacement(e, g1, g2) + rest
      == (if blank then pre + g1 else pre + g1 + g2) + EntryLine(e.entry) + ("]" + rest)
  {
  }

  lemma MatchSpliced(s: string, m: ListMatch, e: Edit)
    requires m.start <= m.open <= m.close < |s| && s[m.close] == ']'
    ensures var blank := e.AppendApp? && Blank(s[m.open..m.close]);
      s[..m.start] + Replacement(e, s[m.start..m.open], s[m.open..m.close]) + s[m.close + 1..]
      == (if blank then s[..m.open] else s[..m.close]) + EntryLine(e.entry) + s[m.close..]
  {
    SplitAtMatch(s, m);
    ReplacementAround(s[..m.start], s[m.start..m.open], s[m.open..m.close], s[m.close + 1..], e);
    assert s[m.close..] == "]" + s[m.close + 1..];
  }

  /** A match ends at a closing bracket. */
  lemma MatchCloses(s: string, name: string, i: nat)
    requires i <= |s| && MatchAt(s, name, i).Some?
    ensures s[MatchAt(s, name, i).value.close] == ']'
  {
    var j := SkipSpace(s, i + |name|);
    var k := SkipSpace(s, j + 1);
    CloseAtFirst(s, k + 1);
  }

  /** The text cut at the three groups of a match. */
  lemma SplitAtMatch(s: string, m: ListMatch)
    requires m.start <= m.open <= m.close < |s|
    ensures s[..m.close] == s[..m.start] + s[m.start..m.open] + s[m.open..m.close]
    ensures s[..m.open] == s[..m.start] + s[m.start..m.open]
    ensures s[m.close..] == [s[m.close]] + s[m.close + 1..]
  {
  }

  /** The `path(...)` entry for the app's URLs. */
  function UrlPattern(app: string): string {
    "path('" + ApiPrefix(app) + "', include('apps." + app + ".urls'))"
  }

  function ApiPrefix(app: string): string {
    "api/" + app + "/"
  }

  const DjangoUrlsImport := "from django.urls import"
  const PathImport := "from django.urls import path"
  const Include := "include"
  const PathIncludeImport := PathImport + ", " + Include

  /** The import rewrite: only when the file imports from `django.urls` and
      never mentions `include`. */
  function WithInclude(content: string): string {
    if Contains(content, DjangoUrlsImport) && !Contains(content, Include)
    then ReplaceAll(content, PathImport, PathIncludeImport)
    else content
  }

  /** `add_to_main_urls` on the text of the project's URL module. */
  function AddToMainUrls(content: string, app: string): string {
    if Contains(content, ApiPrefix(app)) then content
    else SubLists(WithInclude(content), "urlpatterns", AppendUrl(UrlPattern(app)))
  }

  /** Replacing a pattern that occurs leaves the replacement in the text. */
  lemma {:induction false} ReplaceAllLeavesReplacement(s: string, pat: string, rep: string)
    requires |pat| > 0 && Contains(s, pat)
    ensures Contains(ReplaceAll(s, pat, rep), rep)
    decreases |s|
  {
    var r := ReplaceAll(s, pat, rep);
    assert OccursAt(rep, rep, 0);
    if s[..|pat|] == pat {
      assert r == [] + rep + ReplaceAll(s[|pat|..], pat, rep);
      ContainsInMiddle([], rep, ReplaceAll(s[|pat|..], pat, rep), rep);
    } else {
      var i :| 0 <= i <= |s| && OccursAt(s, pat, i);
      assert i != 0;
      assert OccursAt(s[1..], pat, i - 1);
      ReplaceAllLeavesReplacement(s[1..], pat, rep);
      assert r == [s[0]] + ReplaceAll(s[1..], pat, rep) + [];
      ContainsInMiddle([s[0]], ReplaceAll(s[1..], pat, rep), [], rep);
    }
  }

  /** Adding an app's URLs a second time changes nothing, the import
      rewrite included. */
  lemma MainUrlsIdempotent(content: string, app: string)
    ensures AddToMainUrls(AddToMainUrls(content, app), app) == AddToMainUrls(content, app)
  {
    if !Contains(content, ApiPrefix(app)) {
      var c1 := WithInclude(content);
      var e := AppendUrl(UrlPattern(app));
      SubListsInserts(c1, "urlpatterns", e);
      var r := AddToMainUrls(content, app);
      if FindList(c1, "urlpatterns", 0).Some? {
        UrlPatternNamesPrefix(app);
        ContainsTrans(r, UrlPattern(app), ApiPrefix(app));
      } else {
        WithIncludeIdempotent(content);
      }
    }
  }

  lemma UrlPatternNamesPrefix(app: string)
    ensures Contains(UrlPattern(app), ApiPrefix(app))
  {
    assert OccursAt(ApiPrefix(app), ApiPrefix(app), 0);
    assert UrlPattern(app) == "path('" + ApiPrefix(app) + ("', include('apps." + app + ".urls'))");
    ContainsInMiddle("path('", ApiPrefix(app), "', include('apps." + app + ".urls'))", ApiPrefix(app));
  }

  /** Rewriting the import a second time changes nothing. */
  lemma WithIncludeIdempotent(content: string)
    ensures WithInclude(WithInclude(content)) == WithInclude(content)
  {
    if Contains(content, DjangoUrlsImport) && !Contains(content, Include) {
      if Contains(content, PathImport) {
        ReplaceAllLeavesReplacement(content, PathImport, PathIncludeImport);
        assert OccursAt(Include, Include, 0);
        ContainsInMiddle(PathImport + ", ", Include, "", Include);
        assert PathImport + ", " + Include + "" == PathIncludeImport;
        ContainsTrans(WithInclude(content), PathIncludeImport, Include);
      } else {
        ReplaceAllAbsent(content, PathImport, PathIncludeImport);
      }
    }
  }

  /** With one `urlpatterns` list, the app's path goes on a line of its own
      just before the closing bracket of the (possibly import-rewritten)
      text, and the rest of it is kept. */
  lemma MainUrlsSingleList(content: string, app: string, m: ListMatch)
    requires !Contains(content, ApiPrefix(app))
    requires FindList(WithInclude(content), "urlpatterns", 0) == Some(m)
    requires FindList(WithInclude(content)[m.close + 1..], "urlpatterns", 0).None?
    ensures var c := WithInclude(content);
      AddToMainUrls(content, app) == c[..m.close] + EntryLine(UrlPattern(app)) + c[m.close..]
  {
    SingleListInsert(WithInclude(content), "urlpatterns", AppendUrl(UrlPattern(app)), m);
  }
}

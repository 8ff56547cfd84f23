/** The interactive `createapp` command: it asks for an app name, scaffolds
    `apps/<name>/`, optionally walks the user through declaring models,
    writes them to `models.py` and generates the CRUD layers for them. The
    user's typing is a sequence of answer lines. */
module CreateApp {
  import opened Common
  import opened CreateCrud
  import opened CrudFiles

  const InvalidAppName := "Invalid app name. " + "Use only letters, numbers, " + "and underscores."

  // ---------------------------------------------------------------------------
  // Reading answers

  /** One `input()`: the next line typed, and the lines left. Once the
      answers run out every further line reads as empty. */
  function Next(answers: seq<string>): (r: (string, seq<string>))
    ensures |r.1| <= |answers|
    ensures answers == [] ==> r == ("", [])
    ensures answers != [] ==> r.0 == answers[0] && r.1 == answers[1..]
  {
    if answers == [] then ("", []) else (answers[0], answers[1..])
  }

  /** `get_yes_no` on the line typed: blank takes the default, otherwise
      only "y" and "yes", in any case and with any surrounding white space,
      mean yes. */
  function YesNo(line: string, default: bool): (b: bool)
  {
    var response := Lower(Strip(line));
    if response == [] then default else response == "y" || response == "yes"
  }

  lemma YesNoAnswers(line: string, default: bool)
    ensures Blank(line) ==> YesNo(line, default) == default
    ensures !Blank(line) ==> (YesNo(line, default) <==> Lower(Strip(line)) in {"y", "yes"})
  {
    StripEmptyIffBlank(line);
  }

  lemma LowerCharKeepsSpace(c: char)
    ensures IsSpace(LowerChar(c)) <==> IsSpace(c)
  {
  }

  /** The answer depends only on the reply stripped and lower-cased: giving
      that normal form instead of the raw line answers the same. */
  lemma YesNoNormalForm(line: string, default: bool)
    ensures YesNo(Lower(Strip(line)), default) == YesNo(line, default)
  {
    NormalFormStripped(line);
    LowerIdempotent(Strip(line));
  }

  /** Lower-casing a stripped line leaves nothing more to strip. */
  lemma NormalFormStripped(line: string)
    ensures Strip(Lower(Strip(line))) == Lower(Strip(line))
  {
    var s := Strip(line);
    var r := Lower(s);
    if r != [] {
      LowerCharKeepsSpace(s[0]);
      LowerCharKeepsSpace(s[|s| - 1]);
      StripNoSpaceEnds(r);
    }
  }

  // ---------------------------------------------------------------------------
  // Names

  /** The model-name rule of `create_models_interactively`: a name that does
      not start upper-case is capitalised, and a name that is then no
      identifier is refused. */
  function ModelName(name: string): (r: Option<string>)
    requires name != []
    ensures r.Some? ==> IsIdentifier(r.value) && |r.value| == |name|
  {
    var candidate := if IsUpperChar(name[0]) then name else Capitalize(name);
    if IsIdentifier(candidate) then Some(candidate) else None
  }

  /** Normalising only changes letter case: exactly the identifiers are
      accepted, and an accepted name never starts with a lower-case letter. */
  lemma ModelNameNormalises(name: string)
    requires name != []
    ensures ModelName(name).Some? <==> IsIdentifier(name)
    ensures ModelName(name).Some? ==>
      Lower(ModelName(name).value) == Lower(name) && !IsLowerChar(ModelName(name).value[0])
    ensures IsUpperChar(name[0]) && IsIdentifier(name) ==> ModelName(name) == Some(name)
  {
    if !IsUpperChar(name[0]) {
      CapitalizeKeepsWord(name);
      CapitalizeKeepsLower(name);
    }
  }

  /** Capitalising keeps a name an identifier, or not one. */
  lemma CapitalizeKeepsWord(name: string)
    requires name != []
    ensures IsIdentifier(Capitalize(name)) <==> IsIdentifier(name)
  {
    var c := Capitalize(name);
    WordCharsAt(c);
    WordCharsAt(name);
    assert forall i :: 0 <= i < |name| ==> (IsWordChar(c[i]) <==> IsWordChar(name[i]));
  }

  /** Capitalising changes only letter case. */
  lemma CapitalizeKeepsLower(name: string)
    requires name != []
    ensures Lower(Capitalize(name)) == Lower(name)
  {
    var c := Capitalize(name);
    assert forall i :: 0 <= i < |name| ==> Lower(c)[i] == Lower(name)[i];
  }

  /** A normalised name is normalised again to itself. */
  lemma ModelNameIdempotent(name: string)
    requires name != [] && ModelName(name).Some?
    ensures ModelName(ModelName(name).value) == ModelName(name)
  {
    var n := ModelName(name).value;
    if !IsUpperChar(name[0]) && !IsUpperChar(n[0]) {
      LowerIdempotent(name[1..]);
      assert n[0] == '_';
      assert Capitalize(n) == n;
    }
  }

  // ---------------------------------------------------------------------------
  // Fields

  /** The Django field classes the menu of `get_model_fields` offers. */
  datatype FieldKind =
    | CharField | TextField | IntegerField | BooleanField | DateTimeField
    | DateField | EmailField | DecimalField | ForeignKey

  /** A field of a model being declared: its name, its Django field class
      and the arguments the class is called with. */
  datatype Field = Field(name: string, kind: FieldKind, params: string)

  /** The menu, in the order of its choices "1" to "9". */
  const MenuKinds: seq<FieldKind> := [CharField, TextField, IntegerField, BooleanField, DateTimeField,
                                      DateField, EmailField, DecimalField, ForeignKey]

  /** The menu entry a typed choice selects: the nine one-digit choices
      "1" to "9", and nothing else. */
  function MenuEntry(choice: string): (r: Option<FieldKind>)
    ensures r.Some? <==> |choice| == 1 && '1' <= choice[0] <= '9'
  {
    if |choice| == 1 && '1' <= choice[0] <= '9' then Some(MenuKinds[choice[0] as int - '1' as int]) else None
  }

  /** The position of a class on the menu. */
  function KindIndex(k: FieldKind): (i: nat)
    ensures i < |MenuKinds| && MenuKinds[i] == k
  {
    match k
    case CharField => 0
    case TextField => 1
    case IntegerField => 2
    case BooleanField => 3
    case DateTimeField => 4
    case DateField => 5
    case EmailField => 6
    case DecimalField => 7
    case ForeignKey => 8
  }

  /** The class names, in menu order. */
  const KindNames: seq<string> := [
    "CharField", "TextField", "IntegerField", "BooleanField", "DateTimeField",
    "DateField", "EmailField", "DecimalField", "ForeignKey"]

  /** The arguments the menu gives each class, in menu order. */
  const DefaultArgs: seq<string> := [
    "max_length=255", "", "", "default=True", "auto_now_add=True",
    "", "", "max_digits=10, decimal_places=2", ""]

  /** The class name written into `models.py`. */
  function KindName(k: FieldKind): string {
    KindNames[KindIndex(k)]
  }

  function DefaultParams(k: FieldKind): string {
    DefaultArgs[KindIndex(k)]
  }

  lemma DefaultParamsNoBreak(k: FieldKind)
    ensures '\n' !in DefaultParams(k)
  {
    assert forall i :: 0 <= i < |DefaultArgs| ==> '\n' !in DefaultArgs[i];
  }

  /** Each choice selects a distinct class: the menu has nine different
      entries. */
  lemma MenuEntriesDistinct(a: string, b: string)
    requires MenuEntry(a).Some? && MenuEntry(a) == MenuEntry(b)
    ensures a == b
  {
    assert a == [a[0]] && b == [b[0]];
  }

  const NullBlank := "null=True, blank=True"

  /** `sep.join(parts)`. */
  function Join(sep: string, parts: seq<string>): (r: string)
    ensures |parts| == 1 ==> r == parts[0]
  {
    if parts == [] then "" else if |parts| == 1 then parts[0] else parts[0] + sep + Join(sep, parts[1..])
  }

  /** The arguments of a field: the menu's defaults when there are any,
      then `null=True, blank=True` when the field may be empty, joined by
      commas. */
  function FieldParams(defaults: string, nullable: bool): (p: string)
    ensures !nullable ==> p == defaults
  {
    var params := (if defaults != "" then [defaults] else []) + (if nullable then [NullBlank] else []);
    if params != [] then Join(", ", params) else ""
  }

  lemma FieldParamsNullable(defaults: string)
    ensures FieldParams(defaults, true) == (if defaults == "" then NullBlank else defaults + ", " + NullBlank)
  {
    if defaults != "" {
      assert ([defaults] + [NullBlank])[1..] == [NullBlank];
    }
  }

  lemma FieldParamsNoBreak(defaults: string)
    requires '\n' !in defaults
    ensures forall nullable :: '\n' !in FieldParams(defaults, nullable)
  {
    FieldParamsNullable(defaults);
    var p := FieldParams(defaults, true);
    assert '\n' !in NullBlank;
    if defaults != "" {
      assert p == defaults + (", " + NullBlank);
      assert '\n' !in ", " + NullBlank;
    }
  }

  /** What a declared field always satisfies: an identifier for a name,
      and arguments on one line. */
  predicate ValidField(f: Field) {
    IsIdentifier(f.name) && '\n' !in f.params
  }

  /** How one round of the `get_model_fields` loop ends, with the answers
      left: the loop is done, the round was skipped, or a field was read. */
  datatype FieldStep =
    | FieldsDone(rest: seq<string>)
    | FieldSkipped(rest: seq<string>)
    | FieldRead(field: Field, rest: seq<string>)

  /** One round of `get_model_fields`: an empty name ends the loop; a name
      that is no identifier, or a choice not on the menu, skips the round;
      otherwise the null question completes the field. */
  function FieldRound(answers: seq<string>): (r: FieldStep)
    ensures |r.rest| <= |answers| && (!r.FieldsDone? ==> |r.rest| < |answers|)
  {
    var name := Strip(Next(answers).0);
    var rest := Next(answers).1;
    if name == [] then FieldsDone(rest)
    else if !IsIdentifier(name) then FieldSkipped(rest)
    else
      var entry := MenuEntry(Strip(Next(rest).0));
      var rest2 := Next(rest).1;
      if entry.None? then FieldSkipped(rest2)
      else
        var nullable := YesNo(Next(rest2).0, false);
        FieldRead(Field(name, entry.value, FieldParams(DefaultParams(entry.value), nullable)), Next(rest2).1)
  }

  lemma FieldRoundValid(answers: seq<string>)
    ensures FieldRound(answers).FieldRead? ==> ValidField(FieldRound(answers).field)
  {
    var r := FieldRound(answers);
    if r.FieldRead? {
      DefaultParamsNoBreak(r.field.kind);
      FieldParamsNoBreak(DefaultParams(r.field.kind));
    }
  }

  /** The dialogue of `get_model_fields` on the answers typed: the fields
      declared, and the answers left. */
  function FieldsFrom(answers: seq<string>): (r: (seq<Field>, seq<string>))
    ensures |r.1| <= |answers|
    decreases |answers|
  {
    match FieldRound(answers)
    case FieldsDone(rest) => ([], rest)
    case FieldSkipped(rest) => FieldsFrom(rest)
    case FieldRead(f, rest) =>
      var more := FieldsFrom(rest);
      ([f] + more.0, more.1)
  }

  /** Every field the dialogue declares is valid. */
  lemma {:induction false} FieldsFromValid(answers: seq<string>)
    ensures forall i :: 0 <= i < |FieldsFrom(answers).0| ==> ValidField(FieldsFrom(answers).0[i])
    decreases |answers|
  {
    FieldRoundValid(answers);
    var r := FieldRound(answers);
    if r.FieldSkipped? {
      FieldsFromValid(r.rest);
      assert FieldsFrom(answers) == FieldsFrom(r.rest);
    } else if r.FieldRead? {
      FieldsFromValid(r.rest);
      var more := FieldsFrom(r.rest).0;
      assert FieldsFrom(answers).0 == [r.field] + more;
      FieldsConsValid(r.field, more);
    }
  }

  /** `FieldsFrom` one round at a time. */
  lemma FieldsFromStep(answers: seq<string>)
    ensures var r := FieldRound(answers);
      && (r.FieldsDone? ==> FieldsFrom(answers) == ([], r.rest))
      && (r.FieldSkipped? ==> FieldsFrom(answers) == FieldsFrom(r.rest))
      && (r.FieldRead? ==> FieldsFrom(answers) == ([r.field] + FieldsFrom(r.rest).0, FieldsFrom(r.rest).1))
  {
  }

  /** One turn of the loop of `get_model_fields`, on the fields gathered
      so far: what is still to come shrinks by exactly what this round adds. */
  lemma FieldsLoopStep(acc: seq<Field>, answers: seq<string>)
    ensures var r := FieldRound(answers);
      && (r.FieldsDone? ==> acc + FieldsFrom(answers).0 == acc && FieldsFrom(answers).1 == r.rest)
      && (r.FieldSkipped? ==>
            acc + FieldsFrom(r.rest).0 == acc + FieldsFrom(answers).0 && FieldsFrom(r.rest).1 == FieldsFrom(answers).1)
      && (r.FieldRead? ==>
            (acc + [r.field]) + FieldsFrom(r.rest).0 == acc + FieldsFrom(answers).0
            && FieldsFrom(r.rest).1 == FieldsFrom(answers).1)
  {
    FieldsFromStep(answers);
    var r := FieldRound(answers);
    if r.FieldsDone? {
      assert acc + [] == acc;
    } else if r.FieldRead? {
      ConcatAssoc(acc, [r.field], FieldsFrom(r.rest).0);
    }
  }

  lemma FieldsConsValid(f: Field, fields: seq<Field>)
    requires ValidField(f) && forall i :: 0 <= i < |fields| ==> ValidField(fields[i])
    ensures forall i :: 0 <= i < |[f] + fields| ==> ValidField(([f] + fields)[i])
  {
  }

  // ---------------------------------------------------------------------------
  // Models

  /** A model being declared: its class name and its fields. */
  datatype ModelSpec = ModelSpec(name: string, fields: seq<Field>)

  predicate ValidModel(m: ModelSpec) {
    && IsIdentifier(m.name) && !IsLowerChar(m.name[0])
    && forall i :: 0 <= i < |m.fields| ==> ValidField(m.fields[i])
  }

  /** How one round of the `create_models_interactively` loop starts:
      the loop is done, the round was skipped, or a model was named. */
  datatype ModelStep =
    | ModelsDone(rest: seq<string>)
    | ModelSkipped(rest: seq<string>)
    | ModelNamed(name: string, rest: seq<string>)

  /** The start of one round: an empty name ends the loop, a name that is
      no identifier after normalising skips the round. */
  function ModelRound(answers: seq<string>): (r: ModelStep)
    ensures |r.rest| <= |answers| && (!r.ModelsDone? ==> |r.rest| < |answers|)
  {
    var name := Strip(Next(answers).0);
    var rest := Next(answers).1;
    if name == [] then ModelsDone(rest)
    else match ModelName(name)
      case None => ModelSkipped(rest)
      case Some(n) => ModelNamed(n, rest)
  }

  lemma ModelRoundValid(answers: seq<string>)
    ensures ModelRound(answers).ModelNamed? ==>
      IsIdentifier(ModelRound(answers).name) && !IsLowerChar(ModelRound(answers).name[0])
  {
    var name := Strip(Next(answers).0);
    if name != [] {
      ModelNameNormalises(name);
    }
  }

  /** The dialogue of `create_models_interactively` on the answers typed:
      the models declared, and the answers left. */
  function ModelsFrom(answers: seq<string>): (r: (seq<ModelSpec>, seq<string>))
    ensures |r.1| <= |answers|
    decreases |answers|
  {
    match ModelRound(answers)
    case ModelsDone(rest) => ([], rest)
    case ModelSkipped(rest) => ModelsFrom(rest)
    case ModelNamed(n, rest) =>
      var fields := FieldsFrom(rest);
      var more := ModelsFrom(fields.1);
      ([ModelSpec(n, fields.0)] + more.0, more.1)
  }

  /** Every model declared has a capitalised identifier for a name and
      valid fields. */
  lemma {:induction false} ModelsFromValid(answers: seq<string>)
    ensures forall i :: 0 <= i < |ModelsFrom(answers).0| ==> ValidModel(ModelsFrom(answers).0[i])
    decreases |answers|
  {
    ModelRoundValid(answers);
    var r := ModelRound(answers);
    if r.ModelSkipped? {
      ModelsFromValid(r.rest);
      assert ModelsFrom(answers) == ModelsFrom(r.rest);
    } else if r.ModelNamed? {
      var fields := FieldsFrom(r.rest);
      FieldsFromValid(r.rest);
      ModelsFromValid(fields.1);
      var more := ModelsFrom(fields.1).0;
      assert ModelsFrom(answers).0 == [ModelSpec(r.name, fields.0)] + more;
      ModelsConsValid(ModelSpec(r.name, fields.0), more);
    }
  }

  /** `ModelsFrom` one round at a time. */
  lemma ModelsFromStep(answers: seq<string>)
    ensures var r := ModelRound(answers);
      && (r.ModelsDone? ==> ModelsFrom(answers) == ([], r.rest))
      && (r.ModelSkipped? ==> ModelsFrom(answers) == ModelsFrom(r.rest))
      && (r.ModelNamed? ==>
            var fields := FieldsFrom(r.rest);
            ModelsFrom(answers) == ([ModelSpec(r.name, fields.0)] + ModelsFrom(fields.1).0, ModelsFrom(fields.1).1))
  {
  }

  /** One turn of the loop of `create_models_interactively`, on the models
      gathered so far; a named model takes the fields read right after it. */
  lemma ModelsLoopStep(acc: seq<ModelSpec>, answers: seq<string>)
    ensures var r := ModelRound(answers);
      && (r.ModelsDone? ==> acc + ModelsFrom(answers).0 == acc && ModelsFrom(answers).1 == r.rest)
      && (r.ModelSkipped? ==>
            acc + ModelsFrom(r.rest).0 == acc + ModelsFrom(answers).0 && ModelsFrom(r.rest).1 == ModelsFrom(answers).1)
      && (r.ModelNamed? ==>
            var fields := FieldsFrom(r.rest);
            (acc + [ModelSpec(r.name, fields.0)]) + ModelsFrom(fields.1).0 == acc + ModelsFrom(answers).0
            && ModelsFrom(fields.1).1 == ModelsFrom(answers).1)
  {
    ModelsFromStep(answers);
    var r := ModelRound(answers);
    if r.ModelsDone? {
      assert acc + [] == acc;
    } else if r.ModelNamed? {
      var fields := FieldsFrom(r.rest);
      ConcatAssoc(acc, [ModelSpec(r.name, fields.0)], ModelsFrom(fields.1).0);
    }
  }

  lemma ModelsConsValid(m: ModelSpec, models: seq<ModelSpec>)
    requires ValidModel(m) && forall i :: 0 <= i < |models| ==> ValidModel(models[i])
    ensures forall i :: 0 <= i < |[m] + models| ==> ValidModel(([m] + models)[i])
  {
  }

  /** The names of the models, as the keys of a dictionary built from them
      in order: each name once, where it first occurs. */
  function DictKeys(names: seq<string>): (r: seq<string>)
    ensures forall x :: x in r <==> x in names
    ensures forall i, j :: 0 <= i < j < |r| ==> r[i] != r[j]
    decreases |names|
  {
    if names == [] then []
    else
      var init := DictKeys(names[..|names| - 1]);
      var x := names[|names| - 1];
      assert forall y :: y in names <==> y in names[..|names| - 1] || y == x;
      if x in init then init else init + [x]
  }

  function Names(models: seq<ModelSpec>): (r: seq<string>)
    ensures |r| == |models| && forall i :: 0 <= i < |models| ==> r[i] == models[i].name
  {
    seq(|models|, i requires 0 <= i < |models| => models[i].name)
  }

  // ---------------------------------------------------------------------------
  // The text of models.py

  const ModelsHeader: seq<string> := ["from django.db import models", "", ""]

  /** `models.py` when no models are declared. */
  const EmptyModelsText := "from django.db " + "import models\n\n\n" + "# Create your models here.\n"

  function ClassLine(m: ModelSpec): string {
    "class " + m.name + "(models.Model):"
  }

  function DocLine(m: ModelSpec): string {
    "    \"\"\"Model for " + m.name + ".\"\"\""
  }

  /** A field's declaration; no arguments give empty parentheses. */
  function FieldLine(f: Field): string {
    "    " + f.name + " = models." + KindName(f.kind) + "(" + f.params + ")"
  }

  function FieldLines(fields: seq<Field>): (r: seq<string>)
    ensures |r| == |fields| && forall i :: 0 <= i < |fields| ==> r[i] == FieldLine(fields[i])
  {
    seq(|fields|, i requires 0 <= i < |fields| => FieldLine(fields[i]))
  }

  /** A time-stamp column: a `DateTimeField` the database fills in. */
  function StampLine(name: string, params: string): string {
    "    " + name + " = models.DateTimeField(" + params + ")"
  }

  const TimestampLines: seq<string> := [
    StampLine("created_at", "auto_now_add=True"),
    StampLine("updated_at", "auto_now=True"),
    ""]

  /** The table is named after the app and the lower-cased model. */
  function DbTableLine(app: string, m: ModelSpec): string {
    "        db_table = '" + app + "_" + Lower(m.name) + "'"
  }

  function MetaLines(app: string, m: ModelSpec): seq<string> {
    ["    class Meta:", DbTableLine(app, m), "        ordering = " + "['-created_at']", ""]
  }

  /** What `__str__` shows: the first declared field, or the id. */
  function StrTarget(m: ModelSpec): string {
    if m.fields != [] then m.fields[0].name else "id"
  }

  function StrLines(m: ModelSpec): seq<string> {
    ["    def __str__(self):", "        return str(self." + StrTarget(m) + ")", "", ""]
  }

  /** One model's class, line by line. */
  function ModelBlock(app: string, m: ModelSpec): seq<string> {
    [ClassLine(m), DocLine(m), ""] + FieldLines(m.fields) + TimestampLines + MetaLines(app, m) + StrLines(m)
  }

  function ModelBlocks(app: string, models: seq<ModelSpec>): seq<string>
    decreases |models|
  {
    if models == [] then [] else ModelBlocks(app, models[..|models| - 1]) + ModelBlock(app, models[|models| - 1])
  }

  /** `models.py` for the declared models, line by line. */
  function ModelsFileLines(app: string, models: seq<ModelSpec>): seq<string> {
    ModelsHeader + ModelBlocks(app, models)
  }

  /** A model's class starts with its declaration, lists its fields in
      order right after the docstring and blank line, names its table and
      shows its first field (or the id). */
  lemma ModelBlockShape(app: string, m: ModelSpec)
    ensures var b := ModelBlock(app, m);
      && |b| == |m.fields| + 14
      && b[0] == ClassLine(m)
      && (forall i :: 0 <= i < |m.fields| ==> b[3 + i] == FieldLine(m.fields[i]))
      && b[|m.fields| + 7] == DbTableLine(app, m)
      && b[|m.fields| + 11] == "        return str(self." + StrTarget(m) + ")"
  {
  }

  /** Every declared model's class line, and each of its field lines, is a
      line of `models.py`. */
  lemma {:induction false} ModelBlocksDeclare(app: string, models: seq<ModelSpec>, k: nat)
    requires k < |models|
    ensures ClassLine(models[k]) in ModelBlocks(app, models)
    ensures forall j :: 0 <= j < |models[k].fields| ==> FieldLine(models[k].fields[j]) in ModelBlocks(app, models)
    decreases |models|
  {
    var init := models[..|models| - 1];
    var last := models[|models| - 1];
    ModelBlockShape(app, last);
    if k < |models| - 1 {
      ModelBlocksDeclare(app, init, k);
      assert models[k] == init[k];
    } else {
      assert ModelBlock(app, last)[0] == ClassLine(last);
      forall j | 0 <= j < |last.fields|
        ensures FieldLine(last.fields[j]) in ModelBlocks(app, models)
      {
        assert ModelBlock(app, last)[3 + j] == FieldLine(last.fields[j]);
      }
    }
  }

  lemma {:induction false} ModelBlocksNoBreaks(app: string, models: seq<ModelSpec>)
    requires '\n' !in app
    requires forall i :: 0 <= i < |models| ==> ValidModel(models[i])
    ensures NoBreaks(ModelBlocks(app, models))
    decreases |models|
  {
    if models != [] {
      var init := models[..|models| - 1];
      var m := models[|models| - 1];
      ModelBlocksNoBreaks(app, init);
      ModelBlockNoBreaks(app, m);
      NoBreaksJoin(ModelBlocks(app, init), ModelBlock(app, m));
    }
  }

  /** No line of a valid model's class holds a line break. */
  lemma ModelBlockNoBreaks(app: string, m: ModelSpec)
    requires '\n' !in app && ValidModel(m)
    ensures NoBreaks(ModelBlock(app, m))
  {
    HeadNoBreaks(m);
    FieldLinesNoBreaks(m.fields);
    TimestampsNoBreaks();
    MetaNoBreaks(app, m);
    StrNoBreaks(m);
    var head := [ClassLine(m), DocLine(m), ""];
    NoBreaksJoin(head, FieldLines(m.fields));
    NoBreaksJoin(head + FieldLines(m.fields), TimestampLines);
    NoBreaksJoin(head + FieldLines(m.fields) + TimestampLines, MetaLines(app, m));
    NoBreaksJoin(head + FieldLines(m.fields) + TimestampLines + MetaLines(app, m), StrLines(m));
  }

  lemma HeadNoBreaks(m: ModelSpec)
    requires IsIdentifier(m.name)
    ensures NoBreaks([ClassLine(m), DocLine(m), ""])
  {
    IdentifierNoBreak(m.name);
  }

  lemma FieldLinesNoBreaks(fields: seq<Field>)
    requires forall i :: 0 <= i < |fields| ==> ValidField(fields[i])
    ensures NoBreaks(FieldLines(fields))
  {
    forall i | 0 <= i < |fields|
      ensures '\n' !in FieldLine(fields[i])
    {
      IdentifierNoBreak(fields[i].name);
      KindNameNoBreak(fields[i].kind);
    }
  }

  lemma KindNameNoBreak(k: FieldKind)
    ensures '\n' !in KindName(k)
  {
    assert forall i :: 0 <= i < |KindNames| ==> '\n' !in KindNames[i];
  }

  lemma TimestampsNoBreaks()
    ensures NoBreaks(TimestampLines)
  {
    assert '\n' !in TimestampLines[0];
    assert '\n' !in TimestampLines[1];
  }

  lemma MetaNoBreaks(app: string, m: ModelSpec)
    requires '\n' !in app && IsIdentifier(m.name)
    ensures NoBreaks(MetaLines(app, m))
  {
    IdentifierNoBreak(m.name);
    assert '\n' !in Lower(m.name);
  }

  lemma StrNoBreaks(m: ModelSpec)
    requires ValidModel(m)
    ensures NoBreaks(StrLines(m))
  {
    if m.fields != [] {
      assert ValidField(m.fields[0]);
    }
    IdentifierNoBreak(StrTarget(m));
  }

  lemma IdentifierNoBreak(s: string)
    requires IsIdentifier(s) || s == "id"
    ensures '\n' !in s
  {
    if s != "id" {
      WordCharsAt(s);
    }
  }

  /** Reading `models.py` back line by line gives its lines, and among
      them every declared model's class line and field lines. */
  lemma ModelsFileReadsBack(app: string, models: seq<ModelSpec>)
    requires '\n' !in app
    requires forall i :: 0 <= i < |models| ==> ValidModel(models[i])
    ensures Lines(Unlines(ModelsFileLines(app, models))) == ModelsFileLines(app, models)
    ensures forall k :: 0 <= k < |models| ==> ClassLine(models[k]) in Lines(Unlines(ModelsFileLines(app, models)))
  {
    ModelBlocksNoBreaks(app, models);
    assert NoBreaks(ModelsHeader);
    NoBreaksJoin(ModelsHeader, ModelBlocks(app, models));
    LinesUnlines(ModelsFileLines(app, models));
    forall k | 0 <= k < |models|
      ensures ClassLine(models[k]) in ModelsFileLines(app, models)
    {
      ModelBlocksDeclare(app, models, k);
    }
  }

  // ---------------------------------------------------------------------------
  // A whole run

  /** How a run ends: aborted at the overwrite question; completed, with
      `asked` telling whether the model dialogue ran (it declared no
      model); or stopped at the call of `generate_admin`, which the CRUD
      command does not define, right after the CRUD layers were generated
      for the models declared. */
  datatype Run =
    | Aborted
    | Created(app: string, asked: bool)
    | AdminMissing(app: string, models: seq<ModelSpec>)

  /** The app name: the option when given, otherwise the stripped line
      typed; with the answers left. */
  function AppName(option: Option<string>, answers: seq<string>): (r: (string, seq<string>))
    ensures Truthy(option) ==> r == (option.value, answers)
    ensures !Truthy(option) ==> r.1 == Next(answers).1
  {
    if Truthy(option) then (option.value, answers) else (Strip(Next(answers).0), Next(answers).1)
  }

  function AppPath(app: string): Path {
    ["apps", app]
  }

  function ModelsFilePath(dir: Path): Path {
    dir + ["models.py"]
  }

  function AppInitPath(dir: Path): Path {
    dir + ["__init__.py"]
  }

  /** The model questions once the name is accepted: whether to declare
      models (not asked with `--no-models`), then the dialogue; with the
      answers left. */
  function ModelDialogue(answers: seq<string>, app: string, noModels: bool): (r: (Run, seq<string>))
    ensures !r.0.Aborted? && r.0.app == app
  {
    var create := !noModels && YesNo(Next(answers).0, true);
    var rest := if noModels then answers else Next(answers).1;
    if !create then (Created(app, false), rest) else Declared(rest, app)
  }

  /** The outcome of the model dialogue: completed when it declared
      nothing, stopped at `generate_admin` otherwise. */
  function Declared(answers: seq<string>, app: string): (r: (Run, seq<string>))
    ensures !r.0.Aborted? && r.0.app == app
  {
    var declared := ModelsFrom(answers);
    if declared.0 == [] then (Created(app, true), declared.1) else (AdminMissing(app, declared.0), declared.1)
  }

  /** What the answers decide, in the order `handle` asks: the name (from
      the option or typed), the overwrite question for an app that exists,
      then the model questions; with the answers left. */
  function Decide(files: Files, dirs: set<Path>, answers: seq<string>, option: Option<string>, noModels: bool)
    : (r: (Result<Run, string>, seq<string>))
  {
    var name := AppName(option, answers).0;
    var rest := AppName(option, answers).1;
    if !IsIdentifier(name) then (Err(InvalidAppName), rest)
    else
      var d := AfterName(files, dirs, rest, name, noModels);
      (Ok(d.0), d.1)
  }

  /** The run once the name is accepted: an existing app is only rebuilt
      when the user confirms. */
  function AfterName(files: Files, dirs: set<Path>, answers: seq<string>, app: string, noModels: bool)
    : (r: (Run, seq<string>))
  {
    var c := Confirmed(files, dirs, answers, app);
    if !c.0 then (Aborted, c.1) else ModelDialogue(c.1, app, noModels)
  }

  /** The overwrite question, asked only when the app exists, with "no" as
      the default: whether to go on, and the answers left. */
  function Confirmed(files: Files, dirs: set<Path>, answers: seq<string>, app: string): (r: (bool, seq<string>))
  {
    if AppPath(app) in files || AppPath(app) in dirs then (YesNo(Next(answers).0, false), Next(answers).1)
    else (true, answers)
  }

  /** The app package with its `__init__.py` and, always written, its
      `apps.py`. */
  function Scaffold(files: Files, dir: Path, app: string): Files {
    WriteUnlessKept(Touch(files, AppInitPath(dir)), AppsPath(dir), Unlines(AppsConfigLines(app)), true)
  }

  /** The files a run leaves: nothing changes when it aborts; otherwise the
      package is scaffolded, then without the dialogue the empty
      `models.py` is written and the app added to `INSTALLED_APPS`, after
      an empty dialogue only the app is added, and with models declared
      their `models.py` is written and the CRUD layers generated, up to the
      call of `generate_admin`. */
  function RunFiles(files: Files, run: Run, render: Render): Files {
    if run.Aborted? then files else ModelFiles(Scaffold(files, AppPath(run.app), run.app), run, render)
  }

  /** The model step on the scaffolded files. */
  function ModelFiles(files: Files, run: Run, render: Render): Files {
    match run
    case Aborted => files
    case Created(app, asked) =>
      if asked then WithApp(files, app) else WithApp(files[ModelsFilePath(AppPath(app)) := EmptyModelsText], app)
    case AdminMissing(app, models) =>
      var dir := AppPath(app);
      Generated(files[ModelsFilePath(dir) := Unlines(ModelsFileLines(app, models))], dir, app,
                DictKeys(Names(models)), true, render)
  }

  /** The directories a run leaves: `apps/` and the app's own, and the
      three layer packages when models were declared. */
  function RunDirs(dirs: set<Path>, run: Run): set<Path> {
    match run
    case Aborted => dirs
    case Created(app, _) => dirs + {["apps"], AppPath(app)}
    case AdminMissing(app, _) =>
      var dir := AppPath(app);
      dirs + {["apps"], dir} + {PackageDir(dir, Serializers), PackageDir(dir, Views), PackageDir(dir, Services)}
  }

  /** The outcome of `handle`: a name that is no identifier is refused; an
      existing app is kept when the user declines to overwrite it;
      otherwise the run goes ahead under the name given. */
  lemma DecideOutcome(files: Files, dirs: set<Path>, answers: seq<string>, option: Option<string>, noModels: bool)
    ensures var name := AppName(option, answers).0;
      var rest := AppName(option, answers).1;
      var r := Decide(files, dirs, answers, option, noModels).0;
      && (r.Err? <==> !IsIdentifier(name))
      && (r.Err? ==> r.error == InvalidAppName)
      && (r == Ok(Aborted) <==>
            IsIdentifier(name) && (AppPath(name) in files || AppPath(name) in dirs) && !YesNo(Next(rest).0, false))
      && (r.Ok? && !r.value.Aborted? ==> r.value.app == name)
  {
    var name := AppName(option, answers).0;
    var rest := AppName(option, answers).1;
    if IsIdentifier(name) {
      var exists_ := AppPath(name) in files || AppPath(name) in dirs;
      DialogueOutcome(if exists_ then Next(rest).1 else rest, name, noModels);
    }
  }

  /** The model questions never abort the run, name the app, and stop the
      run at `generate_admin` exactly when the dialogue declared models,
      all of them valid. */
  lemma DialogueOutcome(answers: seq<string>, app: string, noModels: bool)
    ensures var r := ModelDialogue(answers, app, noModels).0;
      && !r.Aborted? && r.app == app
      && (noModels ==> r == Created(app, false))
      && (r.AdminMissing? ==> r.models != [] && forall i :: 0 <= i < |r.models| ==> ValidModel(r.models[i]))
  {
    var rest := if noModels then answers else Next(answers).1;
    ModelsFromValid(rest);
  }

  /** A run that goes ahead leaves the app's `apps.py` configuring it under
      its own name, whatever the model step does. */
  lemma RunConfiguresApp(files: Files, run: Run, render: Render)
    requires !run.Aborted?
    ensures var f := RunFiles(files, run, render);
      var p := AppsPath(AppPath(run.app));
      p in f && f[p] == Unlines(AppsConfigLines(run.app))
  {
    var dir := AppPath(run.app);
    assert AppsPath(dir)[2] == "apps.py" && AppsPath(dir)[0] == "apps" && SettingsPath[0] == "base";
    assert ModelsFilePath(dir)[2] == "models.py" && UrlsPath(dir)[2] == "urls.py";
    if run.AdminMissing? {
      var written := Scaffold(files, dir, run.app)[ModelsFilePath(dir) := Unlines(ModelsFileLines(run.app, run.models))];
      GeneratedKeepsOther(written, dir, run.app, DictKeys(Names(run.models)), true, render, AppsPath(dir));
    }
  }

  /** Where a run leaves the settings: the app added to `INSTALLED_APPS`
      when it completes, and the settings as they were when it stops at
      `generate_admin`. */
  lemma RunSettings(files: Files, run: Run, render: Render)
    requires SettingsPath in files
    ensures var f := RunFiles(files, run, render);
      && SettingsPath in f
      && (run.Created? ==> f[SettingsPath] == AddToInstalledApps(files[SettingsPath], run.app))
      && (!run.Created? ==> f[SettingsPath] == files[SettingsPath])
  {
    if !run.Aborted? {
      var dir := AppPath(run.app);
      assert SettingsPath[0] == "base" && AppsPath(dir)[0] == "apps" && AppInitPath(dir)[0] == "apps";
      assert ModelsFilePath(dir)[0] == "apps";
      if run.AdminMissing? {
        var written := Scaffold(files, dir, run.app)[ModelsFilePath(dir) := Unlines(ModelsFileLines(run.app, run.models))];
        assert UrlsPath(dir)[0] == "apps";
        GeneratedKeepsOther(written, dir, run.app, DictKeys(Names(run.models)), true, render, SettingsPath);
      }
    }
  }

  /** Where a run leaves `models.py`: the empty module without the
      dialogue, the declared models' module when it stops at
      `generate_admin`, and whatever was there after an empty dialogue. */
  lemma RunModelsFile(files: Files, run: Run, render: Render)
    requires !run.Aborted?
    ensures var f := RunFiles(files, run, render);
      var p := ModelsFilePath(AppPath(run.app));
      && (run == Created(run.app, false) ==> p in f && f[p] == EmptyModelsText)
      && (run.AdminMissing? ==> p in f && f[p] == Unlines(ModelsFileLines(run.app, run.models)))
      && (run == Created(run.app, true) && p in files ==> p in f && f[p] == files[p])
  {
    var dir := AppPath(run.app);
    var p := ModelsFilePath(dir);
    assert p[2] == "models.py" && AppsPath(dir)[2] == "apps.py" && AppInitPath(dir)[2] == "__init__.py";
    assert SettingsPath[0] == "base" && p[0] == "apps";
    if run.AdminMissing? {
      var written := Scaffold(files, dir, run.app)[p := Unlines(ModelsFileLines(run.app, run.models))];
      assert UrlsPath(dir)[2] == "urls.py";
      GeneratedKeepsOther(written, dir, run.app, DictKeys(Names(run.models)), true, render, p);
    }
  }

  // ---------------------------------------------------------------------------
  // The console and the command

  /** The user at the terminal: the lines still to be typed. */
  class Console {
    var answers: seq<string>

    constructor (answers: seq<string>)
      ensures this.answers == answers
    {
      this.answers := answers;
    }

    /** `input()`. */
    method Input() returns (line: string)
      modifies this
      ensures (line, answers) == Next(old(answers))
    {
      if answers == [] {
        return "";
      }
      line := answers[0];
      answers := answers[1..];
    }
  }

  /** The `createapp` command, talking to one console and writing to one
      disk. */
  class CreateAppCommand {
    const disk: Disk
    const console: Console

    constructor (disk: Disk, console: Console)
      ensures this.disk == disk && this.console == console
    {
      this.disk := disk;
      this.console := console;
    }

    /** `get_input`: a line, stripped. */
    method GetInput() returns (s: string)
      modifies console
      ensures s == Strip(Next(old(console.answers)).0) && console.answers == Next(old(console.answers)).1
    {
      var line := console.Input();
      s := Strip(line);
    }

    /** `get_yes_no`. */
    method GetYesNo(default: bool) returns (b: bool)
      modifies console
      ensures b == YesNo(Next(old(console.answers)).0, default) && console.answers == Next(old(console.answers)).1
    {
      var line := console.Input();
      var response := Lower(Strip(line));
      if response == [] {
        return default;
      }
      b := response == "y" || response == "yes";
    }

    /** `get_model_fields`. */
    method GetModelFields() returns (fields: seq<Field>)
      modifies console
      ensures (fields, console.answers) == FieldsFrom(old(console.answers))
    {
      fields := [];
      ghost var target := FieldsFrom(console.answers);
      assert fields + target.0 == target.0;
      while true
        invariant fields + FieldsFrom(console.answers).0 == target.0
        invariant FieldsFrom(console.answers).1 == target.1
        decreases |console.answers|
      {
        ghost var before := console.answers;
        var step := ReadFieldRound();
        FieldsLoopStep(fields, before);
        if step.FieldsDone? {
          break;
        }
        if step.FieldRead? {
          fields := fields + [step.field];
        }
      }
    }

    /** One round of the loop of `get_model_fields`: the name, then the
        menu choice, then the null question. */
    method ReadFieldRound() returns (step: FieldStep)
      modifies console
      ensures step == FieldRound(old(console.answers)) && console.answers == step.rest
    {
      var name := GetInput();
      if name == [] {
        step := FieldsDone(console.answers);
      } else if !IsIdentifier(name) {
        step := FieldSkipped(console.answers);
      } else {
        var choice := GetInput();
        var entry := MenuEntry(choice);
        if entry.None? {
          step := FieldSkipped(console.answers);
        } else {
          var nullable := GetYesNo(false);
          step := FieldRead(Field(name, entry.value, FieldParams(DefaultParams(entry.value), nullable)),
                            console.answers);
        }
      }
    }

    /** `create_models_interactively`: the dialogue, then `models.py` when
        at least one model was declared. */
    method CreateModelsInteractively(dir: Path, app: string) returns (models: seq<ModelSpec>)
      modifies console, disk
      ensures (models, console.answers) == ModelsFrom(old(console.answers))
      ensures models == [] ==> disk.files == old(disk.files)
      ensures models != [] ==> disk.files == old(disk.files)[ModelsFilePath(dir) := Unlines(ModelsFileLines(app, models))]
      ensures disk.dirs == old(disk.dirs)
    {
      models := ReadModels();
      if models == [] {
        return;
      }
      var content := BuildModelsFile(app, models);
      disk.files := disk.files[ModelsFilePath(dir) := content];
    }

    /** The loop of `create_models_interactively`. */
    method ReadModels() returns (models: seq<ModelSpec>)
      modifies console
      ensures (models, console.answers) == ModelsFrom(old(console.answers))
    {
      models := [];
      ghost var target := ModelsFrom(console.answers);
      assert models + target.0 == target.0;
      while true
        invariant models + ModelsFrom(console.answers).0 == target.0
        invariant ModelsFrom(console.answers).1 == target.1
        decreases |console.answers|
      {
        ghost var before := console.answers;
        var step := ReadModelRound();
        ModelsLoopStep(models, before);
        if step.ModelsDone? {
          break;
        }
        if step.ModelNamed? {
          var fields := GetModelFields();
          models := models + [ModelSpec(step.name, fields)];
        }
      }
    }

    /** The start of one round of that loop: the name, capitalised when it
        does not start upper-case, then checked. */
    method ReadModelRound() returns (step: ModelStep)
      modifies console
      ensures step == ModelRound(old(console.answers)) && console.answers == step.rest
    {
      var name := GetInput();
      if name == [] {
        step := ModelsDone(console.answers);
      } else {
        if !IsUpperChar(name[0]) {
          name := Capitalize(name);
        }
        if !IsIdentifier(name) {
          step := ModelSkipped(console.answers);
        } else {
          step := ModelNamed(name, console.answers);
        }
      }
    }

    /** `generate_crud`, up to the call of `generate_admin`: the model names
        as dictionary keys, then the CRUD steps with overwriting on. */
    method GenerateCrud(dir: Path, app: string, models: seq<ModelSpec>, render: Render)
      modifies disk
      ensures disk.files == Generated(old(disk.files), dir, app, DictKeys(Names(models)), true, render)
      ensures disk.dirs == old(disk.dirs) + {PackageDir(dir, Serializers), PackageDir(dir, Views), PackageDir(dir, Services)}
    {
      var names := DictKeys(Names(models));
      var crud := new CrudCommand(disk);
      crud.CreateDirectories(dir);
      crud.GenerateLayer(dir, app, Serializers, names, true, render);
      crud.GenerateLayer(dir, app, Views, names, true, render);
      crud.GenerateLayer(dir, app, Services, names, true, render);
      crud.GenerateUrls(dir, app, names, true);
    }

    /** `handle`. */
    method Handle(option: Option<string>, noModels: bool, render: Render) returns (r: Result<Run, string>)
      modifies disk, console
      ensures (r, console.answers) == Decide(old(disk.files), old(disk.dirs), old(console.answers), option, noModels)
      ensures r.Err? ==> disk.files == old(disk.files) && disk.dirs == old(disk.dirs)
      ensures r.Ok? ==> disk.files == RunFiles(old(disk.files), r.value, render)
      ensures r.Ok? ==> disk.dirs == RunDirs(old(disk.dirs), r.value)
    {
      var name := "";
      if Truthy(option) {
        name := option.value;
      } else {
        name := GetInput();
      }
      if name == [] || !IsIdentifier(name) {
        r := Err(InvalidAppName);
      } else {
        var proceed := Confirm(name);
        if proceed {
          var run := Build(name, noModels, render);
          r := Ok(run);
        } else {
          r := Ok(Aborted);
        }
      }
    }

    /** The overwrite question, asked only when the app exists, with "no"
        as the default. */
    method Confirm(app: string) returns (proceed: bool)
      modifies console
      ensures proceed == Confirmed(old(disk.files), old(disk.dirs), old(console.answers), app).0
      ensures console.answers == Confirmed(old(disk.files), old(disk.dirs), old(console.answers), app).1
    {
      proceed := true;
      if AppPath(app) in disk.files || AppPath(app) in disk.dirs {
        proceed := GetYesNo(false);
      }
    }

    /** The rest of `handle` once the name is accepted. */
    method Build(app: string, noModels: bool, render: Render) returns (run: Run)
      modifies disk, console
      ensures (run, console.answers) == ModelDialogue(old(console.answers), app, noModels)
      ensures disk.files == RunFiles(old(disk.files), run, render)
      ensures disk.dirs == RunDirs(old(disk.dirs), run)
    {
      var dir := AppPath(app);
      ScaffoldApp(dir, app);
      var createModels := !noModels;
      if createModels {
        createModels := GetYesNo(true);
      }
      run := ModelStep(app, createModels, render);
    }

    /** The models block of `handle`: the dialogue when models are to be
        created, the empty `models.py` otherwise, then the app added to
        `INSTALLED_APPS` unless the CRUD generation stopped the run. */
    method ModelStep(app: string, create: bool, render: Render) returns (run: Run)
      modifies disk, console
      ensures !run.Aborted? && run.app == app
      ensures (run, console.answers)
           == (if create then Declared(old(console.answers), app) else (Created(app, false), old(console.answers)))
      ensures disk.files == ModelFiles(old(disk.files), run, render)
      ensures run.Created? ==> disk.dirs == old(disk.dirs)
      ensures run.AdminMissing? ==>
        var dir := AppPath(app);
        disk.dirs == old(disk.dirs) + {PackageDir(dir, Serializers), PackageDir(dir, Views), PackageDir(dir, Services)}
    {
      if create {
        run := DeclareModels(app, render);
        return;
      }
      disk.files := disk.files[ModelsFilePath(AppPath(app)) := EmptyModelsText];
      var crud := new CrudCommand(disk);
      crud.AddToInstalledApps(app);
      run := Created(app, false);
    }

    /** The model dialogue, then either the CRUD layers (and the stop at
        `generate_admin`) or the app added to `INSTALLED_APPS`. */
    method DeclareModels(app: string, render: Render) returns (run: Run)
      modifies disk, console
      ensures !run.Aborted? && run.app == app
      ensures (run, console.answers) == Declared(old(console.answers), app)
      ensures disk.files == ModelFiles(old(disk.files), run, render)
      ensures run.Created? ==> disk.dirs == old(disk.dirs)
      ensures run.AdminMissing? ==>
        var dir := AppPath(app);
        disk.dirs == old(disk.dirs) + {PackageDir(dir, Serializers), PackageDir(dir, Views), PackageDir(dir, Services)}
    {
      var dir := AppPath(app);
      var models := CreateModelsInteractively(dir, app);
      if models != [] {
        GenerateCrud(dir, app, models, render);
        return AdminMissing(app, models);
      }
      var crud := new CrudCommand(disk);
      crud.AddToInstalledApps(app);
      run := Created(app, true);
    }

    /** The app directory with its `__init__.py` and `apps.py`. */
    method ScaffoldApp(dir: Path, app: string)
      modifies disk
      ensures disk.files == Scaffold(old(disk.files), dir, app)
      ensures disk.dirs == old(disk.dirs) + {["apps"], dir}
    {
      disk.dirs := disk.dirs + {["apps"], dir};
      var init := AppInitPath(dir);
      if init !in disk.files {
        disk.files := disk.files[init := ""];
      }
      var crud := new CrudCommand(disk);
      crud.CreateAppsConfig(dir, app, true);
    }
  }

  // ---------------------------------------------------------------------------
  // Writing models.py

  /** `write_models_file`'s text. */
  method BuildModelsFile(app: string, models: seq<ModelSpec>) returns (content: string)
    ensures content == Unlines(ModelsFileLines(app, models))
  {
    content := "from django.db import models\n\n\n";
    HeaderText(app, models);
    for i := 0 to |models|
      invariant content == Unlines(ModelsHeader + ModelBlocks(app, models[..i]))
    {
      ModelBlocksSnoc(app, models, i);
      UnlinesAppend(ModelsHeader + ModelBlocks(app, models[..i]), ModelBlock(app, models[i]));
      content := AppendModel(content, app, models[i]);
    }
    assert models[..|models|] == models;
  }

  lemma ModelBlocksSnoc(app: string, models: seq<ModelSpec>, i: nat)
    requires i < |models|
    ensures ModelsHeader + ModelBlocks(app, models[..i + 1])
         == (ModelsHeader + ModelBlocks(app, models[..i])) + ModelBlock(app, models[i])
  {
    assert models[..i + 1][..i] == models[..i];
    ConcatAssoc(ModelsHeader, ModelBlocks(app, models[..i]), ModelBlock(app, models[i]));
  }

  lemma HeaderText(app: string, models: seq<ModelSpec>)
    ensures Unlines(ModelsHeader + ModelBlocks(app, models[..0])) == "from django.db import models\n\n\n"
  {
    assert models[..0] == [];
    assert ModelsHeader + ModelBlocks(app, models[..0]) == ModelsHeader;
    UnlinesPair("", "");
    assert ModelsHeader[1..] == ["", ""];
  }

  /** One model's class appended to `prefix`. */
  method AppendModel(prefix: string, app: string, m: ModelSpec) returns (content: string)
    ensures content == prefix + Unlines(ModelBlock(app, m))
  {
    content := AppendHead(prefix, m);
    content := AppendFields(content, m.fields);
    content := AppendTail(content, app, m);
    ModelBlockText(app, m);
  }

  /** A model's class is its head, its field lines and its tail, one after
      the other. */
  lemma ModelBlockText(app: string, m: ModelSpec)
    ensures Unlines(ModelBlock(app, m))
         == Unlines([ClassLine(m), DocLine(m), ""]) + Unlines(FieldLines(m.fields))
          + Unlines(TimestampLines + MetaLines(app, m) + StrLines(m))
  {
    var head := [ClassLine(m), DocLine(m), ""];
    var fields := FieldLines(m.fields);
    var tail := TimestampLines + MetaLines(app, m) + StrLines(m);
    assert ModelBlock(app, m) == (head + fields) + tail;
    UnlinesAppend(head, fields);
    UnlinesAppend(head + fields, tail);
  }

  /** The class line, the docstring and a blank line. */
  method AppendHead(prefix: string, m: ModelSpec) returns (content: string)
    ensures content == prefix + Unlines([ClassLine(m), DocLine(m), ""])
  {
    content := prefix + "class " + m.name + "(models.Model):\n";
    content := content + "    \"\"\"Model for " + m.name + ".\"\"\"\n\n";
    HeadText(m);
  }

  /** The time stamps, the `Meta` class and `__str__`. */
  method AppendTail(prefix: string, app: string, m: ModelSpec) returns (content: string)
    ensures content == prefix + Unlines(TimestampLines + MetaLines(app, m) + StrLines(m))
  {
    content := AppendTimestamps(prefix);
    content := AppendMeta(content, app, m);
    content := AppendStr(content, m);
    UnlinesAppend(TimestampLines, MetaLines(app, m));
    UnlinesAppend(TimestampLines + MetaLines(app, m), StrLines(m));
  }

  method AppendTimestamps(prefix: string) returns (content: string)
    ensures content == prefix + Unlines(TimestampLines)
  {
    content := prefix + StampLine("created_at", "auto_now_add=True") + "\n";
    content := content + StampLine("updated_at", "auto_now=True") + "\n\n";
    TimestampText();
  }

  method AppendMeta(prefix: string, app: string, m: ModelSpec) returns (content: string)
    ensures content == prefix + Unlines(MetaLines(app, m))
  {
    content := prefix + "    class Meta:\n";
    content := content + DbTableLine(app, m) + "\n";
    content := content + "        ordering = " + "['-created_at']\n\n";
    MetaText(app, m);
  }

  method AppendStr(prefix: string, m: ModelSpec) returns (content: string)
    ensures content == prefix + Unlines(StrLines(m))
  {
    var first := if m.fields != [] then m.fields[0].name else "id";
    content := prefix + "    def __str__(self):\n";
    content := content + "        return str(self." + first + ")\n\n\n";
    StrText(m);
  }

  lemma HeadText(m: ModelSpec)
    ensures Unlines([ClassLine(m), DocLine(m), ""])
         == "class " + m.name + "(models.Model):\n" + "    \"\"\"Model for " + m.name + ".\"\"\"\n\n"
  {
    UnlinesPair(DocLine(m), "");
    assert [ClassLine(m), DocLine(m), ""][1..] == [DocLine(m), ""];
  }

  lemma TimestampText()
    ensures Unlines(TimestampLines)
         == StampLine("created_at", "auto_now_add=True") + "\n" + StampLine("updated_at", "auto_now=True") + "\n\n"
  {
    UnlinesPair(TimestampLines[1], "");
    assert TimestampLines[1..] == [TimestampLines[1], ""];
  }

  lemma MetaText(app: string, m: ModelSpec)
    ensures Unlines(MetaLines(app, m))
         == "    class Meta:\n" + DbTableLine(app, m) + "\n" + "        ordering = " + "['-created_at']\n\n"
  {
    var meta := MetaLines(app, m);
    UnlinesPair(meta[2], "");
    assert meta[2..] == [meta[2], ""];
    assert meta[1..] == [meta[1]] + meta[2..];
  }

  lemma StrText(m: ModelSpec)
    ensures Unlines(StrLines(m))
         == "    def __str__(self):\n" + "        return str(self." + StrTarget(m) + ")\n\n\n"
  {
    var str := StrLines(m);
    UnlinesPair("", "");
    assert str[2..] == ["", ""];
    assert str[1..] == [str[1]] + str[2..];
  }

  lemma FieldLineParens(f: Field)
    ensures "    " + f.name + " = models." + KindName(f.kind) + (if f.params != "" then "(" + f.params + ")" else "()")
         == FieldLine(f)
  {
    if f.params == "" {
      assert "(" + f.params + ")" == "()";
    }
  }

  lemma FieldLinesSnoc(fields: seq<Field>, i: nat)
    requires i < |fields|
    ensures FieldLines(fields[..i + 1]) == FieldLines(fields[..i]) + [FieldLine(fields[i])]
  {
  }

  /** The field lines appended to `prefix`. */
  method AppendFields(prefix: string, fields: seq<Field>) returns (content: string)
    ensures content == prefix + Unlines(FieldLines(fields))
  {
    content := prefix;
    for i := 0 to |fields|
      invariant content == prefix + Unlines(FieldLines(fields[..i]))
    {
      var f := fields[i];
      var params := if f.params != "" then "(" + f.params + ")" else "()";
      var line := "    " + f.name + " = models." + KindName(f.kind) + params;
      ghost var done := FieldLines(fields[..i]);
      FieldLineParens(f);
      FieldLinesSnoc(fields, i);
      UnlinesSnoc(prefix, done, line);
      content := content + line + "\n";
    }
    assert fields[..|fields|] == fields;
  }
}

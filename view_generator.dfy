/** The view generator (generators/view/index.js) without its prompts, its file system
    and its route-file parser: the import-line builder and the test-framework import it
    selects, the class name derived from the view name, the quoted route-table entry,
    and the plan of files that `writing()` produces. The persisted configuration is a
    value passed in. */
module ViewGenerator {
  import opened Js
  import opened Strings
  import ViewTemplate
  import Ejs

  /** The two persisted settings, each as whatever value `config.get` returns. */
  datatype Config = Config(useRequireSyntax: JsValue, testFramework: JsValue)

  // ---- import lines (_makeImport) ----

  /** What an import line binds: nothing, one default binding, or a list of named ones. */
  datatype Binding = NoBinding | Default(name: string) | Named(names: seq<string>)

  /** How `_makeImport` reads its assignee: a falsy one binds nothing, an array is a
      list of names, anything else is converted to a string. */
  function BindingOf(assignee: JsValue): (r: Binding)
    ensures r.NoBinding? <==> !Truthy(assignee)
    ensures r.Named? <==> assignee.StrArray?
    ensures assignee.StrArray? ==> r == Named(assignee.items)
    ensures r.Default? ==> r.name == ToJsString(assignee) && r.name != ""
  {
    if !Truthy(assignee) then NoBinding
    else if assignee.StrArray? then Named(assignee.items)
    else Default(ToJsString(assignee))
  }

  function Keyword(commonJs: bool): string { if commonJs then "const " else "import " }
  function Separator(commonJs: bool): string { if commonJs then " = " else " from " }
  function SourceForm(source: string, commonJs: bool): string {
    if commonJs then "require('" + source + "')" else "'" + source + "'"
  }

  /** The binding as written between the keyword and the separator. */
  function Pattern(binding: Binding): string {
    match binding
    case NoBinding => ""
    case Default(name) => name
    case Named(names) => "{ " + Join(names, ", ") + " }"
  }

  /** Keyword, binding and separator: the text in front of the source form, empty when
      nothing is bound. */
  function BindingClause(binding: Binding, commonJs: bool): string {
    if binding.NoBinding? then "" else Keyword(commonJs) + Pattern(binding) + Separator(commonJs)
  }

  /** The line for a binding and a module source in the CommonJS dialect (`commonJs`)
      or the ES one. */
  function RenderImport(binding: Binding, source: string, commonJs: bool): string {
    BindingClause(binding, commonJs) + SourceForm(source, commonJs)
  }

  /** The line `_makeImport(assignee, source)` returns under `config`. */
  function ImportLine(config: Config, assignee: JsValue, source: string): (r: string)
    ensures EndsWith(r, SourceForm(source, Truthy(config.useRequireSyntax)))
    ensures r == SourceForm(source, Truthy(config.useRequireSyntax)) <==> !Truthy(assignee)
  {
    var cjs := Truthy(config.useRequireSyntax);
    var clause := BindingClause(BindingOf(assignee), cjs);
    SuffixOfConcat(clause, SourceForm(source, cjs));
    assert Truthy(assignee) ==> |clause| > 0;
    RenderImport(BindingOf(assignee), source, cjs)
  }

  /** `_makeImport`: builds the line by successive appends. */
  method MakeImport(config: Config, assignee: JsValue, source: string) returns (importString: string)
    ensures importString == ImportLine(config, assignee, source)
  {
    var useRequire := config.useRequireSyntax;
    ghost var cjs := Truthy(useRequire);
    ghost var binding := BindingOf(assignee);
    importString := "";

    if Truthy(assignee) {
      importString := importString + (if Truthy(useRequire) then "const " else "import ");
      assert importString == Keyword(cjs);
      if assignee.StrArray? {
        importString := importString + "{ ";
        importString := importString + Join(assignee.items, ", ");
        ConcatAssoc(Keyword(cjs), "{ ", Join(assignee.items, ", "));
        importString := importString + " }";
        ConcatAssoc(Keyword(cjs), "{ " + Join(assignee.items, ", "), " }");
      } else {
        importString := importString + ToJsString(assignee);
      }
      assert importString == Keyword(cjs) + Pattern(binding);
      importString := importString + (if Truthy(useRequire) then " = " else " from ");
    }
    assert importString == BindingClause(binding, cjs);

    importString := importString + (if Truthy(useRequire) then "require('" + source + "')" else "'" + source + "'");
  }

  /** With a falsy assignee the line is the bare source form: no keyword, no binding. */
  lemma ImportWithoutAssignee(config: Config, assignee: JsValue, source: string)
    requires !Truthy(assignee)
    ensures Truthy(config.useRequireSyntax) ==> ImportLine(config, assignee, source) == "require('" + source + "')"
    ensures !Truthy(config.useRequireSyntax) ==> ImportLine(config, assignee, source) == "'" + source + "'"
  {
  }

  /** A non-array truthy assignee is a default binding of its string form. */
  lemma ImportWithSingleAssignee(config: Config, assignee: JsValue, source: string)
    requires Truthy(assignee) && !assignee.StrArray?
    ensures Truthy(config.useRequireSyntax) ==>
      ImportLine(config, assignee, source) == "const " + ToJsString(assignee) + " = require('" + source + "')"
    ensures !Truthy(config.useRequireSyntax) ==>
      ImportLine(config, assignee, source) == "import " + ToJsString(assignee) + " from '" + source + "'"
  {
  }

  /** An array assignee binds its items, joined by ", " inside braces. */
  lemma ImportWithArrayAssignee(config: Config, names: seq<string>, source: string)
    ensures Truthy(config.useRequireSyntax) ==>
      ImportLine(config, StrArray(names), source) == "const { " + Join(names, ", ") + " } = require('" + source + "')"
    ensures !Truthy(config.useRequireSyntax) ==>
      ImportLine(config, StrArray(names), source) == "import { " + Join(names, ", ") + " } from '" + source + "'"
  {
    NamedImportCommonJs(names, source);
    NamedImportEs(names, source);
  }

  lemma NamedImportCommonJs(names: seq<string>, source: string)
    ensures RenderImport(Named(names), source, true)
         == "const { " + Join(names, ", ") + " } = require('" + source + "')"
  {
    var j := Join(names, ", ");
    assert RenderImport(Named(names), source, true)
        == "const " + ("{ " + j + " }") + " = " + ("require('" + source + "')");
    CommonJsBraces(j, source);
  }

  lemma CommonJsBraces(j: string, source: string)
    ensures "const " + ("{ " + j + " }") + " = " + ("require('" + source + "')")
         == "const { " + j + " } = require('" + source + "')"
  {
  }

  lemma NamedImportEs(names: seq<string>, source: string)
    ensures RenderImport(Named(names), source, false)
         == "import { " + Join(names, ", ") + " } from '" + source + "'"
  {
    var j := Join(names, ", ");
    assert RenderImport(Named(names), source, false)
        == "import " + ("{ " + j + " }") + " from " + ("'" + source + "'");
    EsBraces(j, source);
  }

  lemma EsBraces(j: string, source: string)
    ensures "import " + ("{ " + j + " }") + " from " + ("'" + source + "'")
         == "import { " + j + " } from '" + source + "'"
  {
  }

  /** An empty array is truthy, so it still produces a binding: braces around nothing. */
  lemma ImportWithEmptyArray(config: Config, source: string)
    ensures Truthy(config.useRequireSyntax) ==>
      ImportLine(config, StrArray([]), source) == "const {  } = require('" + source + "')"
    ensures !Truthy(config.useRequireSyntax) ==>
      ImportLine(config, StrArray([]), source) == "import {  } from '" + source + "'"
  {
    if Truthy(config.useRequireSyntax) {
      EmptyNamedCommonJs(source);
    } else {
      EmptyNamedEs(source);
    }
  }

  lemma EmptyNamedCommonJs(source: string)
    ensures RenderImport(Named([]), source, true) == "const {  } = require('" + source + "')"
  {
    assert Join([], ", ") == "";
    NamedImportCommonJs([], source);
    assert "const { " + "" == "const { ";
    assert "const { " + " } = require('" == "const {  } = require('";
  }

  lemma EmptyNamedEs(source: string)
    ensures RenderImport(Named([]), source, false) == "import {  } from '" + source + "'"
  {
    assert Join([], ", ") == "";
    NamedImportEs([], source);
    assert "import { " + "" == "import { ";
    assert "import { " + " } from '" == "import {  } from '";
  }

  /** The keyword and the source form follow the one flag: a line that binds something
      starts with `const ` and ends in `')` exactly when the flag is truthy, and starts
      with `import ` exactly when it is not. */
  lemma {:induction false} ImportDialectNotMixed(config: Config, assignee: JsValue, source: string)
    requires Truthy(assignee)
    ensures var line := ImportLine(config, assignee, source);
      (StartsWith(line, "const ") <==> Truthy(config.useRequireSyntax)) &&
      (StartsWith(line, "import ") <==> !Truthy(config.useRequireSyntax)) &&
      (EndsWith(line, "')") <==> Truthy(config.useRequireSyntax))
  {
    var line := ImportLine(config, assignee, source);
    var cjs := Truthy(config.useRequireSyntax);
    var k, p, sep, from := Keyword(cjs), Pattern(BindingOf(assignee)), Separator(cjs), SourceForm(source, cjs);
    assert line == ((k + p) + sep) + from;
    ConcatAssoc(k + p, sep, from);
    ConcatAssoc(k, p, sep + from);
    PrefixOfConcat(k, p + (sep + from));
    assert line[0] == k[0];
    assert line[|line| - 1] == from[|from| - 1];
    if cjs {
      assert from == ("require('" + source) + "')";
      ConcatAssoc((k + p) + sep, "require('" + source, "')");
      SuffixOfConcat(((k + p) + sep) + ("require('" + source), "')");
      FirstCharDiffers(line, "import ");
    } else {
      FirstCharDiffers(line, "const ");
      LastCharDiffers(line, "')");
    }
  }

  // ---- the test-framework import (_getTestEnvImport) ----

  /** `_getTestEnvImport`: the assertion-library import for the configured framework,
      `undefined` for any value other than the strings 'mocha' and 'tape'. */
  function TestEnvImport(config: Config): (r: JsValue)
    ensures config.testFramework == Str("mocha") ==> r == Str(
      if Truthy(config.useRequireSyntax) then "const { expect } = require('chai')"
      else "import { expect } from 'chai'")
    ensures config.testFramework == Str("tape") ==> r == Str(
      if Truthy(config.useRequireSyntax) then "const test = require('tape')"
      else "import test from 'tape'")
    ensures config.testFramework != Str("mocha") && config.testFramework != Str("tape") ==> r == Undefined
  {
    if config.testFramework == Str("mocha") then
      ChaiImportLine(Truthy(config.useRequireSyntax));
      Str(ImportLine(config, StrArray(["expect"]), "chai"))
    else if config.testFramework == Str("tape") then
      TapeImportLine(Truthy(config.useRequireSyntax));
      Str(ImportLine(config, Str("test"), "tape"))
    else Undefined
  }

  lemma ChaiImportLine(commonJs: bool)
    ensures RenderImport(Named(["expect"]), "chai", commonJs)
      == if commonJs then "const { expect } = require('chai')" else "import { expect } from 'chai'"
  {
    if commonJs {
      ChaiCommonJs();
    } else {
      ChaiEs();
    }
  }

  lemma ExpectPattern()
    ensures Pattern(Named(["expect"])) == "{ expect }"
  {
    assert Join(["expect"], ", ") == "expect";
  }

  lemma ChaiCommonJs()
    ensures RenderImport(Named(["expect"]), "chai", true) == "const { expect } = require('chai')"
  {
    ExpectPattern();
    assert BindingClause(Named(["expect"]), true) == "const { expect } = ";
    assert SourceForm("chai", true) == "require('chai')";
  }

  lemma ChaiEs()
    ensures RenderImport(Named(["expect"]), "chai", false) == "import { expect } from 'chai'"
  {
    ExpectPattern();
    assert BindingClause(Named(["expect"]), false) == "import { expect } from ";
    assert SourceForm("chai", false) == "'chai'";
  }

  lemma TapeImportLine(commonJs: bool)
    ensures RenderImport(Default("test"), "tape", commonJs)
      == if commonJs then "const test = require('tape')" else "import test from 'tape'"
  {
    if commonJs {
      assert BindingClause(Default("test"), true) == "const test = ";
      assert SourceForm("tape", true) == "require('tape')";
    } else {
      assert BindingClause(Default("test"), false) == "import test from ";
      assert SourceForm("tape", false) == "'tape'";
    }
  }

  // ---- the class name (writing(), line 46) ----

  predicate IsLowerAscii(c: char) {
    'a' <= c <= 'z'
  }

  /** `toUpperCase` on one character, for the ASCII letters. */
  function UpperAscii(c: char): char {
    if IsLowerAscii(c) then (c as int - 32) as char else c
  }

  /** `name[0].toUpperCase() + name.substring(1)`; an empty name has no `name[0]`, and
      calling a method on `undefined` throws a TypeError. */
  function CapitalizedName(name: string): (r: Completion<string>)
    ensures r.Throw? <==> name == ""
    ensures r.Throw? ==> r.error == "TypeError"
    ensures r.Normal? ==> |r.value| == |name|
    ensures r.Normal? ==> forall i :: 1 <= i < |name| ==> r.value[i] == name[i]
    ensures r.Normal? ==> !IsLowerAscii(r.value[0])
    ensures r.Normal? && IsLowerAscii(name[0]) ==> r.value[0] as int == name[0] as int - 32
    ensures r.Normal? && !IsLowerAscii(name[0]) ==> r.value[0] == name[0]
  {
    if name == "" then Throw("TypeError") else Normal([UpperAscii(name[0])] + name[1..])
  }

  /** Capitalising an already capitalised name changes nothing. */
  lemma CapitalizeIdempotent(name: string)
    requires name != ""
    ensures CapitalizedName(CapitalizedName(name).value) == CapitalizedName(name)
  {
    var once := CapitalizedName(name).value;
    assert once[1..] == name[1..];
    assert [once[0]] + once[1..] == once;
  }

  // ---- the route-table entry (writing(), line 52) ----

  /** The key and the value handed to the route-table editor. */
  datatype RouteEntry = RouteEntry(key: string, value: string)

  /** A single-quoted literal of `s`, without escaping. */
  function Quoted(s: string): (r: string)
    ensures |r| == |s| + 2
    ensures r[0] == '\'' && r[|r| - 1] == '\''
    ensures r[1..|r| - 1] == s
  {
    "'" + s + "'"
  }

  /** The entry for `route`: the key is the quoted route, the value the quoted view name. */
  function RouteEntryFor(route: string, name: string): (r: RouteEntry)
    ensures |r.key| == |route| + 2 && |r.value| == |name| + 2
    ensures r.key[1..|r.key| - 1] == route && r.value[1..|r.value| - 1] == name
    ensures r.key[0] == '\'' && r.key[|r.key| - 1] == '\''
    ensures r.value[0] == '\'' && r.value[|r.value| - 1] == '\''
  {
    RouteEntry(Quoted(route), Quoted(name))
  }

  // ---- the output plan of writing() ----

  /** One `copyTpl`: which template is instantiated at which destination. */
  datatype Write = Write(template: string, destination: string)

  /** What `writing()` does when it completes: the route entry it inserts, the template
      writes in order, and the lines of the controller module when one is written. */
  datatype Plan = Plan(route: RouteEntry, writes: seq<Write>, controller: seq<seq<string>>)

  function ViewDir(name: string): string {
    "web_modules/views/" + name
  }

  function IndexPath(name: string): string { ViewDir(name) + "/index.js" }
  function HtmlPath(name: string): string { ViewDir(name) + "/" + name + ".html" }
  function ControllerPath(name: string): string { ViewDir(name) + "/" + name + ".js" }
  function TestPath(name: string): string { ViewDir(name) + "/" + name + ".test.js" }

  /** `this.options['template-only'] !== true`: strict comparison with the boolean. */
  predicate WritesController(templateOnly: JsValue) {
    templateOnly != Bool(true)
  }

  /** `this.config.get(TEST_FRAMEWORK) !== 'none'`. */
  predicate WritesTest(templateOnly: JsValue, config: Config) {
    WritesController(templateOnly) && config.testFramework != Str("none")
  }

  /** `writing()`: throws before touching anything when the name is empty. */
  function WritingPlan(name: string, route: string, templateOnly: JsValue, config: Config): (r: Completion<Plan>)
    ensures r.Throw? <==> name == ""
    ensures r.Normal? ==>
      r.value.route == RouteEntryFor(route, name) &&
      2 <= |r.value.writes| <= 4 && r.value.writes[0] == Write("index.js", IndexPath(name)) &&
      r.value.writes[1] == Write("view.html", HtmlPath(name)) && |r.value.controller| <= 1
  {
    match CapitalizedName(name)
    case Throw(e) => Throw(e)
    case Normal(className) =>
      var always := [Write("index.js", IndexPath(name)), Write("view.html", HtmlPath(name))];
      var test := if config.testFramework != Str("none") then [Write("view.test.js", TestPath(name))] else [];
      var optional := if WritesController(templateOnly) then [Write("view.js", ControllerPath(name))] + test else [];
      var controller :=
        if WritesController(templateOnly) then [ViewTemplate.Render(config.useRequireSyntax, className)] else [];
      Normal(Plan(RouteEntryFor(route, name), always + optional, controller))
  }

  function Destinations(writes: seq<Write>): (r: seq<string>)
    ensures |r| == |writes|
    ensures forall i :: 0 <= i < |writes| ==> r[i] == writes[i].destination
  {
    seq(|writes|, i requires 0 <= i < |writes| => writes[i].destination)
  }

  /** An empty name aborts `writing()` with a TypeError: no route entry, no file. */
  lemma EmptyNameThrows(route: string, templateOnly: JsValue, config: Config)
    ensures WritingPlan("", route, templateOnly, config) == Throw("TypeError")
  {
  }

  /** Which templates are written, and where, as a function of the two guards. */
  lemma {:induction false} PlanFiles(name: string, route: string, templateOnly: JsValue, config: Config)
    requires name != ""
    ensures WritingPlan(name, route, templateOnly, config).Normal?
    ensures var w := WritingPlan(name, route, templateOnly, config).value.writes;
      Write("index.js", IndexPath(name)) in w &&
      Write("view.html", HtmlPath(name)) in w &&
      (Write("view.js", ControllerPath(name)) in w <==> WritesController(templateOnly)) &&
      (Write("view.test.js", TestPath(name)) in w <==> WritesTest(templateOnly, config)) &&
      (forall i :: 0 <= i < |w| ==> w[i].template in ["index.js", "view.html", "view.js", "view.test.js"])
  {
    var w := WritingPlan(name, route, templateOnly, config).value.writes;
    if !WritesController(templateOnly) {
      assert forall i :: 0 <= i < |w| ==> w[i].template in ["index.js", "view.html"];
    } else if !WritesTest(templateOnly, config) {
      assert forall i :: 0 <= i < |w| ==> w[i].template in ["index.js", "view.html", "view.js"];
    }
  }

  /** Two writes when template-only, otherwise three, or four with a test framework. */
  lemma PlanSize(name: string, route: string, templateOnly: JsValue, config: Config)
    requires name != ""
    ensures var n := |WritingPlan(name, route, templateOnly, config).value.writes|;
      (n == 2 <==> templateOnly == Bool(true)) &&
      (n == 3 <==> templateOnly != Bool(true) && config.testFramework == Str("none")) &&
      (n == 4 <==> WritesTest(templateOnly, config))
  {
  }

  /** The controller module carries the capitalised class, escaped as the template's tag
      emits it, and is present exactly when the controller is written. */
  lemma PlanController(name: string, route: string, templateOnly: JsValue, config: Config)
    requires name != ""
    ensures var p := WritingPlan(name, route, templateOnly, config).value;
      (|p.controller| == 1 <==> WritesController(templateOnly)) &&
      (|p.controller| <= 1) &&
      (forall m :: m in p.controller ==>
        ViewTemplate.DeclaredClasses(m) == [Ejs.EscapeHtml(CapitalizedName(name).value)] &&
        ViewTemplate.ExportedNames(m) == [Ejs.EscapeHtml(CapitalizedName(name).value)]) &&
      (|p.controller| == 1 ==>
        p.controller[0] == ViewTemplate.Render(config.useRequireSyntax, CapitalizedName(name).value) &&
        (ViewTemplate.CommonJsMarkers(p.controller[0]) != [] <==> Truthy(config.useRequireSyntax)) &&
        (ViewTemplate.EsMarkers(p.controller[0]) != [] <==> !Truthy(config.useRequireSyntax)))
  {
    var p := WritingPlan(name, route, templateOnly, config).value;
    if WritesController(templateOnly) {
      ViewTemplate.ExportsTheDeclaredClass(config.useRequireSyntax, CapitalizedName(name).value);
      ViewTemplate.DialectNotMixed(config.useRequireSyntax, CapitalizedName(name).value);
    }
  }

  /** Within one run the controller module and the test file's assertion-library import
      are written in the same dialect: the controller carries CommonJS markers exactly
      when the import is a `const … = require(…)` line. */
  lemma ControllerMatchesTestImport(name: string, route: string, templateOnly: JsValue, config: Config)
    requires name != "" && WritesTest(templateOnly, config)
    requires config.testFramework == Str("mocha") || config.testFramework == Str("tape")
    ensures var p := WritingPlan(name, route, templateOnly, config).value;
      |p.controller| == 1 && TestEnvImport(config).Str? &&
      (ViewTemplate.CommonJsMarkers(p.controller[0]) != [] <==> StartsWith(TestEnvImport(config).s, "const ")) &&
      (ViewTemplate.EsMarkers(p.controller[0]) != [] <==> StartsWith(TestEnvImport(config).s, "import "))
  {
    PlanController(name, route, templateOnly, config);
    if config.testFramework == Str("mocha") {
      assert TestEnvImport(config) == Str(ImportLine(config, StrArray(["expect"]), "chai"));
      ImportDialectNotMixed(config, StrArray(["expect"]), "chai");
    } else {
      assert TestEnvImport(config) == Str(ImportLine(config, Str("test"), "tape"));
      ImportDialectNotMixed(config, Str("test"), "tape");
    }
  }

  /** The route entry is the quoted route mapped to the quoted view name. */
  lemma PlanRoute(name: string, route: string, templateOnly: JsValue, config: Config)
    requires name != ""
    ensures WritingPlan(name, route, templateOnly, config).value.route == RouteEntry("'" + route + "'", "'" + name + "'")
  {
  }

  /** The view named "index" is the one whose controller lands on the index module's path. */
  lemma ControllerPathIsIndexPath(name: string)
    ensures ControllerPath(name) == IndexPath(name) <==> name == "index"
  {
    var d := ViewDir(name) + "/";
    assert ControllerPath(name) == d + (name + ".js");
    assert IndexPath(name) == d + "index.js";
    if ControllerPath(name) == IndexPath(name) {
      ConcatCancel(d, name + ".js", "index.js");
      assert |name| == 5;
      assert name == (name + ".js")[..5];
    }
  }

  /** The destinations differ pairwise, except that a view named "index" whose controller
      is written puts the controller on top of the index module. */
  lemma {:induction false} PlanDestinationsDistinct(name: string, route: string, templateOnly: JsValue, config: Config)
    requires name != ""
    ensures var d := Destinations(WritingPlan(name, route, templateOnly, config).value.writes);
      (forall i, j :: 0 <= i < j < |d| ==> d[i] != d[j]) <==> (name != "index" || templateOnly == Bool(true))
  {
    var d := Destinations(WritingPlan(name, route, templateOnly, config).value.writes);
    var leaves := Leaves(name, templateOnly, config);
    DestinationsOfPlan(name, route, templateOnly, config);
    PrefixKeepsDistinct(ViewDir(name) + "/", leaves, d);
    LeavesDistinct(name, templateOnly, config);
  }

  /** The destinations' file names after `web_modules/views/<name>/`, in plan order. */
  function Leaves(name: string, templateOnly: JsValue, config: Config): seq<string> {
    ["index.js", name + ".html"]
      + (if WritesController(templateOnly)
         then [name + ".js"] + (if config.testFramework != Str("none") then [name + ".test.js"] else [])
         else [])
  }

  lemma DestinationsOfPlan(name: string, route: string, templateOnly: JsValue, config: Config)
    requires name != ""
    ensures var d := Destinations(WritingPlan(name, route, templateOnly, config).value.writes);
      var leaves := Leaves(name, templateOnly, config);
      |d| == |leaves| && forall i :: 0 <= i < |d| ==> d[i] == ViewDir(name) + "/" + leaves[i]
  {
    var dir := ViewDir(name) + "/";
    ConcatAssoc(dir, name, ".html");
    ConcatAssoc(dir, name, ".js");
    ConcatAssoc(dir, name, ".test.js");
  }

  lemma PrefixKeepsDistinct(dir: string, leaves: seq<string>, d: seq<string>)
    requires |d| == |leaves| && forall i :: 0 <= i < |d| ==> d[i] == dir + leaves[i]
    ensures (forall i, j :: 0 <= i < j < |d| ==> d[i] != d[j]) <==> (forall i, j :: 0 <= i < j < |leaves| ==> leaves[i] != leaves[j])
  {
    forall i, j | 0 <= i < j < |d| ensures d[i] == d[j] <==> leaves[i] == leaves[j] {
      if d[i] == d[j] {
        ConcatCancel(dir, leaves[i], leaves[j]);
      }
    }
  }

  lemma LeavesDistinct(name: string, templateOnly: JsValue, config: Config)
    requires name != ""
    ensures var leaves := Leaves(name, templateOnly, config);
      (forall i, j :: 0 <= i < j < |leaves| ==> leaves[i] != leaves[j]) <==> (name != "index" || templateOnly == Bool(true))
  {
    var leaves := Leaves(name, templateOnly, config);
    DistinctLeaves(name);
    if !WritesController(templateOnly) {
      assert leaves == ["index.js", name + ".html"];
    } else if name == "index" {
      assert leaves[0] == leaves[2];
    } else if config.testFramework != Str("none") {
      assert leaves == ["index.js", name + ".html", name + ".js", name + ".test.js"];
    } else {
      assert leaves == ["index.js", name + ".html", name + ".js"];
    }
  }

  /** The file names after the view directory differ pairwise, except index/controller for "index". */
  lemma DistinctLeaves(name: string)
    requires name != ""
    ensures "index.js" != name + ".html" && "index.js" != name + ".test.js"
    ensures name + ".html" != name + ".js" && name + ".html" != name + ".test.js"
    ensures name + ".js" != name + ".test.js"
    ensures name + ".js" == "index.js" <==> name == "index"
  {
    assert ("index.js")[7] == 's' && (name + ".html")[|name| + 4] == 'l';
    assert (name + ".js")[|name| + 2] == 's' && (name + ".test.js")[|name| + 2] == 'e';
    if name + ".js" == "index.js" {
      assert name == (name + ".js")[..|name|];
    }
  }

  /** An unset TEST_FRAMEWORK is not the string 'none': the test file is still written,
      while the test-framework import is `undefined`. */
  lemma UnsetFrameworkStillWritesTest(name: string, route: string, useRequireSyntax: JsValue)
    requires name != ""
    ensures var config := Config(useRequireSyntax, Undefined);
      Write("view.test.js", TestPath(name)) in WritingPlan(name, route, Undefined, config).value.writes &&
      TestEnvImport(config) == Undefined
  {
    PlanFiles(name, route, Undefined, Config(useRequireSyntax, Undefined));
  }

  /** A `--template-only` value other than the boolean `true` (the string "true", say)
      does not count as template-only. */
  lemma TemplateOnlyIsStrict(name: string, route: string, config: Config)
    requires name != ""
    ensures Write("view.js", ControllerPath(name)) in WritingPlan(name, route, Str("true"), config).value.writes
    ensures Write("view.js", ControllerPath(name)) !in WritingPlan(name, route, Bool(true), config).value.writes
  {
    PlanFiles(name, route, Str("true"), config);
    PlanFiles(name, route, Bool(true), config);
  }

  lemma ProfileClassName()
    ensures CapitalizedName("profile") == Normal("Profile")
  {
    assert UpperAscii('p') == 'P';
    assert [UpperAscii('p')] + "profile"[1..] == "Profile";
  }

  lemma ProfilePaths()
    ensures IndexPath("profile") == "web_modules/views/profile/index.js"
    ensures HtmlPath("profile") == "web_modules/views/profile/profile.html"
    ensures ControllerPath("profile") == "web_modules/views/profile/profile.js"
    ensures TestPath("profile") == "web_modules/views/profile/profile.test.js"
  {
    ProfileIndexPaths();
    ProfileControllerPaths();
  }

  lemma ProfileIndexPaths()
    ensures IndexPath("profile") == "web_modules/views/profile/index.js"
    ensures HtmlPath("profile") == "web_modules/views/profile/profile.html"
  {
    assert ViewDir("profile") == "web_modules/views/profile";
  }

  lemma ProfileControllerPaths()
    ensures ControllerPath("profile") == "web_modules/views/profile/profile.js"
    ensures TestPath("profile") == "web_modules/views/profile/profile.test.js"
  {
    assert ViewDir("profile") == "web_modules/views/profile";
  }

  lemma ProfileRender()
    ensures ViewTemplate.Render(Bool(true), "Profile") == [
      "'use strict'",
      "",
      "class Profile {",
      "  constructor(params) {",
      "    this.ready = ko.observable(true)",
      "  }",
      "",
      "  dispose() {",
      "",
      "  }",
      "}",
      "",
      "module.exports = Profile"]
  {
    ProfileEscaped();
    ProfileModule();
  }

  lemma ProfileEscaped()
    ensures Ejs.EscapeHtml("Profile") == "Profile"
  {
    Ejs.EscapePlain("Profile");
  }

  lemma ProfileModule()
    ensures ViewTemplate.Module(Bool(true), "Profile") == [
      "'use strict'",
      "",
      "class Profile {",
      "  constructor(params) {",
      "    this.ready = ko.observable(true)",
      "  }",
      "",
      "  dispose() {",
      "",
      "  }",
      "}",
      "",
      "module.exports = Profile"]
  {
    assert ViewTemplate.ClassLine("Profile") == "class Profile {";
    assert ViewTemplate.ExportStatement(Bool(true), "Profile") == "module.exports = Profile";
  }

  /** With the controller and a test framework, the four writes in `copyTpl` order. */
  lemma FullPlanWrites(name: string, route: string, templateOnly: JsValue, config: Config)
    requires name != "" && WritesTest(templateOnly, config)
    ensures Destinations(WritingPlan(name, route, templateOnly, config).value.writes)
      == [IndexPath(name), HtmlPath(name), ControllerPath(name), TestPath(name)]
  {
    var w := WritingPlan(name, route, templateOnly, config).value.writes;
    assert w == [Write("index.js", IndexPath(name)), Write("view.html", HtmlPath(name)),
                 Write("view.js", ControllerPath(name)), Write("view.test.js", TestPath(name))];
  }

  lemma ProfileRouteEntry()
    ensures RouteEntryFor("/profile", "profile") == RouteEntry("'/profile'", "'profile'")
  {
    assert "'" + "/profile" + "'" == "'/profile'";
    assert "'" + "profile" + "'" == "'profile'";
  }

  /** The view "profile" at "/profile", not template-only, with mocha: the route entry
      and the four destinations. */
  lemma ProfileExampleWrites()
    ensures var p := WritingPlan("profile", "/profile", Bool(false), Config(Bool(true), Str("mocha"))).value;
      p.route == RouteEntry("'/profile'", "'profile'") &&
      Destinations(p.writes) == [
        "web_modules/views/profile/index.js",
        "web_modules/views/profile/profile.html",
        "web_modules/views/profile/profile.js",
        "web_modules/views/profile/profile.test.js"]
  {
    var config := Config(Bool(true), Str("mocha"));
    ProfilePaths();
    FullPlanWrites("profile", "/profile", Bool(false), config);
    ProfileRouteEntry();
  }

  /** The same view under require syntax: the controller declares and exports `Profile`,
      and the test file's import is the CommonJS `chai` one. */
  lemma ProfileExampleController()
    ensures var config := Config(Bool(true), Str("mocha"));
      WritingPlan("profile", "/profile", Bool(false), config).value.controller == [[
        "'use strict'",
        "",
        "class Profile {",
        "  constructor(params) {",
        "    this.ready = ko.observable(true)",
        "  }",
        "",
        "  dispose() {",
        "",
        "  }",
        "}",
        "",
        "module.exports = Profile"]] &&
      TestEnvImport(config) == Str("const { expect } = require('chai')")
  {
    ProfileClassName();
    ProfileRender();
  }
}

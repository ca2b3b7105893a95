/** The controller-module template (generators/view/templates/view.js), rendered as
    the list of lines it emits for a value of `USE_REQUIRE_SYNTAX` and a class name,
    together with line scanners that read back what a rendered module declares,
    exports and which module dialect it is written in. */
module ViewTemplate {
  import opened Js
  import opened Strings
  import Ejs

  const UseStrict := "'use strict'"
  const CommonJsExport := "module.exports = "
  const EsExport := "export default "

  /** Lines 1-3: the strict-mode directive, emitted only under a truthy flag. */
  function Header(useRequireSyntax: JsValue): seq<string> {
    if Truthy(useRequireSyntax) then [UseStrict] else []
  }

  function ClassLine(className: string): string {
    "class " + className + " {"
  }

  /** Lines 6-14: the class members, its closing brace and the blank line after it. */
  const ClassBody: seq<string> := [
    "  constructor(params) {",
    "    this.ready = ko.observable(true)",
    "  }",
    "",
    "  dispose() {",
    "",
    "  }",
    "}",
    ""
  ]

  /** Lines 4-14: the blank line and the class declaration. */
  function ClassBlock(className: string): seq<string> {
    [""] + [ClassLine(className)] + ClassBody
  }

  /** Lines 15-19: the export statement of the chosen dialect. */
  function ExportStatement(useRequireSyntax: JsValue, className: string): string {
    if Truthy(useRequireSyntax) then CommonJsExport + className else EsExport + className
  }

  /** The module's lines with `name` written where the class name goes. */
  function Module(useRequireSyntax: JsValue, name: string): seq<string> {
    Header(useRequireSyntax) + ClassBlock(name) + [ExportStatement(useRequireSyntax, name)]
  }

  /** The rendered controller module, line by line: both `<%= CAPITALIZED_VIEW_NAME %>`
      tags emit the HTML-escaped class name. */
  function Render(useRequireSyntax: JsValue, className: string): (r: seq<string>)
    ensures |r| == |Header(useRequireSyntax)| + 12
    ensures r[|r| - 10..|r| - 1] == ClassBody
    ensures r[|r| - 11] == ClassLine(Ejs.EscapeHtml(className))
  {
    Module(useRequireSyntax, Ejs.EscapeHtml(className))
  }

  // ---- scanners over rendered lines ----

  predicate Wraps(line: string, prefix: string, suffix: string) {
    |prefix| + |suffix| <= |line| && StartsWith(line, prefix) && EndsWith(line, suffix)
  }

  /** The middle parts of the lines that start with `prefix` and end with `suffix`, in order. */
  function Select(lines: seq<string>, prefix: string, suffix: string): seq<string>
    decreases |lines|
  {
    if lines == [] then []
    else
      var line := lines[0];
      (if Wraps(line, prefix, suffix) then [line[|prefix|..|line| - |suffix|]] else [])
        + Select(lines[1..], prefix, suffix)
  }

  /** Names given to an export statement of either dialect. */
  function ExportedNames(lines: seq<string>): seq<string> {
    Select(lines, CommonJsExport, "") + Select(lines, EsExport, "")
  }

  /** Names of the classes the lines declare. */
  function DeclaredClasses(lines: seq<string>): seq<string> {
    Select(lines, "class ", " {")
  }

  /** Lines that only a CommonJS module contains: the strict directive and `module.exports`. */
  function CommonJsMarkers(lines: seq<string>): seq<string> {
    Select(lines, UseStrict, "") + Select(lines, "module.exports", "")
  }

  /** Lines that only an ES module contains: `export` and `import` declarations. */
  function EsMarkers(lines: seq<string>): seq<string> {
    Select(lines, "export ", "") + Select(lines, "import ", "")
  }

  predicate IsDialectLine(line: string) {
    line == UseStrict || StartsWith(line, "module.exports") || StartsWith(line, "export ")
      || StartsWith(line, "import ")
  }

  /** The lines that are neither a dialect marker, in order. */
  function CodeLines(lines: seq<string>): seq<string>
    decreases |lines|
  {
    if lines == [] then []
    else (if IsDialectLine(lines[0]) then [] else [lines[0]]) + CodeLines(lines[1..])
  }

  lemma {:induction false} SelectConcat(a: seq<string>, b: seq<string>, prefix: string, suffix: string)
    ensures Select(a + b, prefix, suffix) == Select(a, prefix, suffix) + Select(b, prefix, suffix)
    decreases |a|
  {
    if a != [] {
      assert (a + b)[1..] == a[1..] + b;
      SelectConcat(a[1..], b, prefix, suffix);
    } else {
      assert a + b == b;
    }
  }

  lemma {:induction false} SelectNone(lines: seq<string>, prefix: string, suffix: string)
    requires forall i :: 0 <= i < |lines| ==> !Wraps(lines[i], prefix, suffix)
    ensures Select(lines, prefix, suffix) == []
    decreases |lines|
  {
    if lines != [] {
      SelectNone(lines[1..], prefix, suffix);
    }
  }

  lemma {:induction false} CodeLinesConcat(a: seq<string>, b: seq<string>)
    ensures CodeLines(a + b) == CodeLines(a) + CodeLines(b)
    decreases |a|
  {
    if a != [] {
      assert (a + b)[1..] == a[1..] + b;
      CodeLinesConcat(a[1..], b);
    } else {
      assert a + b == b;
    }
  }

  lemma {:induction false} CodeLinesKeepAll(lines: seq<string>)
    requires forall i :: 0 <= i < |lines| ==> !IsDialectLine(lines[i])
    ensures CodeLines(lines) == lines
    decreases |lines|
  {
    if lines != [] {
      CodeLinesKeepAll(lines[1..]);
      assert [lines[0]] + lines[1..] == lines;
    }
  }

  /** Every line of the class body is blank or starts with a space or a closing brace. */
  lemma ClassBodyLeading()
    ensures forall i :: 0 <= i < |ClassBody| ==>
      ClassBody[i] == "" || ClassBody[i][0] == ' ' || ClassBody[i][0] == '}'
  {
  }

  /** A line that starts with a character other than the prefix's first one is not selected. */
  lemma SelectClassBody(prefix: string, suffix: string)
    requires |prefix| > 0 && prefix[0] != ' ' && prefix[0] != '}'
    ensures Select(ClassBody, prefix, suffix) == []
    ensures Select([""] + ClassBody, prefix, suffix) == []
  {
    ClassBodyLeading();
    forall i | 0 <= i < |ClassBody| ensures !Wraps(ClassBody[i], prefix, suffix) {
      assert ClassBody[i] == "" || ClassBody[i][0] != prefix[0];
    }
    SelectNone(ClassBody, prefix, suffix);
    SelectConcat([""], ClassBody, prefix, suffix);
  }

  /** Select over a module, piece by piece. */
  lemma SelectModule(useRequireSyntax: JsValue, name: string, prefix: string, suffix: string)
    requires |prefix| > 0 && prefix[0] != ' ' && prefix[0] != '}'
    ensures Select(Module(useRequireSyntax, name), prefix, suffix)
         == Select(Header(useRequireSyntax), prefix, suffix)
          + Select([ClassLine(name)], prefix, suffix)
          + Select([ExportStatement(useRequireSyntax, name)], prefix, suffix)
  {
    var h, e := Header(useRequireSyntax), [ExportStatement(useRequireSyntax, name)];
    var c := [ClassLine(name)];
    var blank: seq<string> := [""];
    var cb := ClassBlock(name);
    var sh, sc, se := Select(h, prefix, suffix), Select(c, prefix, suffix), Select(e, prefix, suffix);
    assert cb == (blank + c) + ClassBody;
    SelectClassBody(prefix, suffix);
    SelectNone(blank, prefix, suffix);
    SelectConcat(blank, c, prefix, suffix);
    SelectConcat(blank + c, ClassBody, prefix, suffix);
    assert Select(cb, prefix, suffix) == sc;
    SelectConcat(h, cb, prefix, suffix);
    SelectConcat(h + cb, e, prefix, suffix);
    assert Module(useRequireSyntax, name) == (h + cb) + e;
  }

  /** A line made of `prefix` and a name is selected by `prefix`, giving back the name. */
  lemma SelectPrefixed(prefix: string, name: string)
    ensures Select([prefix + name], prefix, "") == [name]
  {
    var line := prefix + name;
    assert line[..|prefix|] == prefix;
    assert line[|prefix|..|line| - 0] == name;
  }

  lemma ClassLineShape(className: string)
    ensures StartsWith(ClassLine(className), "class ")
    ensures ClassLine(className)[0] == 'c'
    ensures EndsWith(ClassLine(className), " {")
  {
    assert ClassLine(className)[..6] == "class ";
  }

  /** The strict-mode directive is present, and is the first line, exactly when the flag is truthy. */
  lemma HeaderIffUseRequire(useRequireSyntax: JsValue, className: string)
    ensures UseStrict in Render(useRequireSyntax, className) <==> Truthy(useRequireSyntax)
    ensures Render(useRequireSyntax, className)[0] == UseStrict <==> Truthy(useRequireSyntax)
  {
    ModuleHeader(useRequireSyntax, Ejs.EscapeHtml(className));
  }

  lemma ModuleHeader(useRequireSyntax: JsValue, name: string)
    ensures UseStrict in Module(useRequireSyntax, name) <==> Truthy(useRequireSyntax)
    ensures Module(useRequireSyntax, name)[0] == UseStrict <==> Truthy(useRequireSyntax)
  {
    var r := Module(useRequireSyntax, name);
    ClassLineShape(name);
    if Truthy(useRequireSyntax) {
      assert r[0] == UseStrict;
    } else {
      assert r == ClassBlock(name) + [EsExport + name];
      assert (EsExport + name)[0] == 'e';
      forall i | 0 <= i < |r| ensures r[i] != UseStrict {
        if i == 1 {
          assert r[i] == ClassLine(name);
        } else if i == |r| - 1 {
          assert r[i][0] == 'e';
        }
      }
    }
  }

  /** The module ends with `module.exports = <Name>` under a truthy flag and with
      `export default <Name>` otherwise, the name escaped as the tag emits it. */
  lemma ExportFormFollowsFlag(useRequireSyntax: JsValue, className: string)
    ensures var r := Render(useRequireSyntax, className);
      (Truthy(useRequireSyntax) ==> r[|r| - 1] == "module.exports = " + Ejs.EscapeHtml(className)) &&
      (!Truthy(useRequireSyntax) ==> r[|r| - 1] == "export default " + Ejs.EscapeHtml(className))
  {
  }

  /** Exactly one export statement and exactly one class declaration, both naming the
      escaped `className`. */
  lemma ExportsTheDeclaredClass(useRequireSyntax: JsValue, className: string)
    ensures ExportedNames(Render(useRequireSyntax, className)) == [Ejs.EscapeHtml(className)]
    ensures DeclaredClasses(Render(useRequireSyntax, className)) == [Ejs.EscapeHtml(className)]
  {
    ModuleExports(useRequireSyntax, Ejs.EscapeHtml(className));
  }

  lemma {:induction false} ModuleExports(useRequireSyntax: JsValue, name: string)
    ensures ExportedNames(Module(useRequireSyntax, name)) == [name]
    ensures DeclaredClasses(Module(useRequireSyntax, name)) == [name]
  {
    var cl := ClassLine(name);
    var ex := ExportStatement(useRequireSyntax, name);
    ClassLineShape(name);
    SelectModule(useRequireSyntax, name, CommonJsExport, "");
    SelectModule(useRequireSyntax, name, EsExport, "");
    SelectModule(useRequireSyntax, name, "class ", " {");
    assert Select([cl], CommonJsExport, "") == [];
    assert Select([cl], EsExport, "") == [];
    assert Select([cl], "class ", " {") == [name];
    assert Select(Header(useRequireSyntax), "class ", " {") == [];
    assert Select(Header(useRequireSyntax), CommonJsExport, "") == [];
    assert Select(Header(useRequireSyntax), EsExport, "") == [];
    if Truthy(useRequireSyntax) {
      SelectPrefixed(CommonJsExport, name);
      assert Select([ex], EsExport, "") == [];
      assert Select([ex], "class ", " {") == [];
    } else {
      SelectPrefixed(EsExport, name);
      assert Select([ex], CommonJsExport, "") == [];
      assert Select([ex], "class ", " {") == [];
    }
  }

  /** The header and the export are chosen by the same flag: a rendered module carries
      CommonJS markers exactly when the flag is truthy and ES markers exactly when it is not. */
  lemma DialectNotMixed(useRequireSyntax: JsValue, className: string)
    ensures CommonJsMarkers(Render(useRequireSyntax, className)) != [] <==> Truthy(useRequireSyntax)
    ensures EsMarkers(Render(useRequireSyntax, className)) != [] <==> !Truthy(useRequireSyntax)
  {
    ModuleDialects(useRequireSyntax, Ejs.EscapeHtml(className));
  }

  lemma ModuleDialects(useRequireSyntax: JsValue, name: string)
    ensures CommonJsMarkers(Module(useRequireSyntax, name)) != [] <==> Truthy(useRequireSyntax)
    ensures EsMarkers(Module(useRequireSyntax, name)) != [] <==> !Truthy(useRequireSyntax)
  {
    if Truthy(useRequireSyntax) {
      CommonJsModuleMarkers(useRequireSyntax, name);
    } else {
      EsModuleMarkers(useRequireSyntax, name);
    }
  }

  lemma CommonJsModuleMarkers(useRequireSyntax: JsValue, name: string)
    requires Truthy(useRequireSyntax)
    ensures CommonJsMarkers(Module(useRequireSyntax, name)) != []
    ensures EsMarkers(Module(useRequireSyntax, name)) == []
  {
    var cl := ClassLine(name);
    var ex := ExportStatement(useRequireSyntax, name);
    ClassLineShape(name);
    assert ex[0] == 'm';
    assert Header(useRequireSyntax) == [UseStrict];
    SelectModule(useRequireSyntax, name, UseStrict, "");
    SelectTakes(UseStrict, UseStrict);
    SelectModule(useRequireSyntax, name, "export ", "");
    SelectModule(useRequireSyntax, name, "import ", "");
    SelectSkips(UseStrict, "export ", "");
    SelectSkips(UseStrict, "import ", "");
    SelectSkips(cl, "export ", "");
    SelectSkips(cl, "import ", "");
    SelectSkips(ex, "export ", "");
    SelectSkips(ex, "import ", "");
  }

  lemma EsModuleMarkers(useRequireSyntax: JsValue, name: string)
    requires !Truthy(useRequireSyntax)
    ensures CommonJsMarkers(Module(useRequireSyntax, name)) == []
    ensures EsMarkers(Module(useRequireSyntax, name)) != []
  {
    var cl := ClassLine(name);
    var ex := ExportStatement(useRequireSyntax, name);
    ClassLineShape(name);
    assert ex[..|"export "|] == "export ";
    assert ex[0] == 'e';
    assert Header(useRequireSyntax) == [];
    SelectModule(useRequireSyntax, name, UseStrict, "");
    SelectModule(useRequireSyntax, name, "module.exports", "");
    SelectModule(useRequireSyntax, name, "export ", "");
    SelectSkips(cl, UseStrict, "");
    SelectSkips(cl, "module.exports", "");
    SelectSkips(ex, UseStrict, "");
    SelectSkips(ex, "module.exports", "");
    SelectTakes(ex, "export ");
  }

  /** A line whose first character differs from the prefix's is not selected. */
  lemma SelectSkips(line: string, prefix: string, suffix: string)
    requires |line| > 0 && |prefix| > 0 && line[0] != prefix[0]
    ensures Select([line], prefix, suffix) == []
  {
    FirstCharDiffers(line, prefix);
  }

  /** A line that starts with the prefix is selected. */
  lemma SelectTakes(line: string, prefix: string)
    requires StartsWith(line, prefix)
    ensures Select([line], prefix, "") != []
  {
    assert line[|line| - 0..] == "";
  }

  /** Apart from the dialect lines, the module is the fixed class block whatever the flag. */
  lemma BodyIndependentOfFlag(useRequireSyntax: JsValue, className: string)
    ensures CodeLines(Render(useRequireSyntax, className)) == ClassBlock(Ejs.EscapeHtml(className))
    ensures CodeLines(Render(useRequireSyntax, className)) == CodeLines(Render(Bool(!Truthy(useRequireSyntax)), className))
  {
    var name := Ejs.EscapeHtml(className);
    ClassBlockIsCode(name);
    ModuleCodeLines(useRequireSyntax, name);
    ModuleCodeLines(Bool(!Truthy(useRequireSyntax)), name);
  }

  lemma ClassBlockIsCode(className: string)
    ensures CodeLines(ClassBlock(className)) == ClassBlock(className)
  {
    var b := ClassBlock(className);
    ClassLineShape(className);
    ClassBodyLeading();
    forall i | 0 <= i < |b| ensures !IsDialectLine(b[i]) {
      if i == 1 {
        assert b[i] == ClassLine(className);
      } else if i >= 2 {
        assert b[i] == ClassBody[i - 2];
      }
      NotDialectByFirstChar(b[i]);
    }
    CodeLinesKeepAll(b);
  }

  /** Every marker line starts with one of `'`, `m`, `e` or `i`. */
  lemma NotDialectByFirstChar(line: string)
    requires line == "" || (line[0] != '\'' && line[0] != 'm' && line[0] != 'e' && line[0] != 'i')
    ensures !IsDialectLine(line)
  {
    if line != "" {
      FirstCharDiffers(line, "module.exports");
      FirstCharDiffers(line, "export ");
      FirstCharDiffers(line, "import ");
    }
  }

  lemma ModuleCodeLines(useRequireSyntax: JsValue, name: string)
    ensures CodeLines(Module(useRequireSyntax, name)) == CodeLines(ClassBlock(name))
  {
    var h, b := Header(useRequireSyntax), ClassBlock(name);
    var ex := ExportStatement(useRequireSyntax, name);
    CodeLinesConcat(h + b, [ex]);
    CodeLinesConcat(h, b);
    assert CodeLines(h) == [];
    if Truthy(useRequireSyntax) {
      assert ex[..|"module.exports"|] == "module.exports";
    } else {
      assert ex[..|"export "|] == "export ";
    }
    assert IsDialectLine(ex);
    assert CodeLines([ex]) == [];
  }

  /** A name with an apostrophe is emitted escaped in the class line and the export. */
  lemma RenderEscapesName()
    ensures var r := Render(Bool(true), "It's");
      r[2] == "class It&#39;s {" && r[|r| - 1] == "module.exports = It&#39;s"
  {
    Ejs.ApostropheEscaped();
    assert ClassLine("It&#39;s") == "class It&#39;s {";
    assert ExportStatement(Bool(true), "It&#39;s") == "module.exports = It&#39;s";
  }
}

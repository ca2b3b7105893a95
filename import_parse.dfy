/** Reading an import line back: a decoder for the lines `_makeImport`
    (generators/view/index.js:112-132) produces, and the proof that it recovers the
    dialect, the binding and the module source from every line whose names and source
    are free of the delimiters the two dialects use. */
module ImportParse {
  import opened Js
  import opened Strings
  import opened Wrappers
  import opened ViewGenerator

  /** What an import line says: its dialect, what it binds and which module it loads. */
  datatype ImportForm = ImportForm(commonJs: bool, binding: Binding, source: string)

  /** The binding written between the keyword and the separator. */
  function ParsePattern(p: string): Binding {
    if |p| >= 4 && p[..2] == "{ " && p[|p| - 2..] == " }" then
      var inner := p[2..|p| - 2];
      Named(if inner == "" then [] else SplitNames(inner))
    else Default(p)
  }

  /** Decodes `require('S')`, `const B = require('S')`, `'S'` and `import B from 'S'`. */
  function ParseImport(line: string): Option<ImportForm> {
    if EndsWith(line, "')") then
      var body := line[..|line| - 2];
      var source := AfterLast(body, '\'');
      var head := body[..|body| - |source|];
      if !EndsWith(head, "require('") then None
      else
        var pre := head[..|head| - 9];
        if pre == "" then Some(ImportForm(true, NoBinding, source))
        else if |pre| >= 9 && StartsWith(pre, "const ") && EndsWith(pre, " = ") then
          Some(ImportForm(true, ParsePattern(pre[6..|pre| - 3]), source))
        else None
    else if EndsWith(line, "'") then
      var body := line[..|line| - 1];
      var source := AfterLast(body, '\'');
      var head := body[..|body| - |source|];
      if !EndsWith(head, "'") then None
      else
        var pre := head[..|head| - 1];
        if pre == "" then Some(ImportForm(false, NoBinding, source))
        else if |pre| >= 13 && StartsWith(pre, "import ") && EndsWith(pre, " from ") then
          Some(ImportForm(false, ParsePattern(pre[7..|pre| - 6]), source))
        else None
    else None
  }

  /** A binding the decoder can tell apart: a default name that does not open a brace,
      named items that are non-empty and hold no comma. */
  predicate Recoverable(binding: Binding) {
    match binding
    case NoBinding => true
    case Default(name) => name == "" || name[0] != '{'
    case Named(names) => forall i :: 0 <= i < |names| ==> names[i] != "" && ',' !in names[i]
  }

  lemma {:induction false} ParsePatternOf(binding: Binding)
    requires Recoverable(binding) && !binding.NoBinding?
    ensures ParsePattern(Pattern(binding)) == binding
  {
    var p := Pattern(binding);
    match binding
    case Default(name) =>
      if |p| >= 4 {
        assert p[..2][0] == name[0];
      }
    case Named(names) =>
      var j := Join(names, ", ");
      assert p == "{ " + j + " }";
      assert p[..2] == "{ " && p[|p| - 2..] == " }";
      assert p[2..|p| - 2] == j;
      JoinEmpty(names, ", ");
      if names != [] {
        SplitJoin(names);
      }
  }

  lemma CommonJsShape(binding: Binding, source: string)
    ensures RenderImport(binding, source, true)
         == (((BindingClause(binding, true) + "require(") + ['\'']) + source) + "')"
  {
    var pre := BindingClause(binding, true);
    assert "require('" == "require(" + ['\''];
    assert SourceForm(source, true) == ("require(" + ['\'']) + source + "')";
    ConcatAssoc(pre, "require(", ['\'']);
  }

  /** The text in front of `require(` in a CommonJS line that binds something. */
  lemma CommonJsPrefix(binding: Binding)
    requires !binding.NoBinding?
    ensures var pre := BindingClause(binding, true);
      |pre| >= 9 && StartsWith(pre, "const ") && EndsWith(pre, " = ") && pre[6..|pre| - 3] == Pattern(binding)
  {
    var pre := BindingClause(binding, true);
    var p := Pattern(binding);
    ConcatAssoc("const ", p, " = ");
    PrefixOfConcat("const ", p + " = ");
    SuffixOfConcat("const " + p, " = ");
    assert pre[6..|pre| - 3] == p;
  }

  lemma {:induction false} ParseCommonJs(binding: Binding, source: string)
    requires Recoverable(binding) && '\'' !in source
    ensures ParseImport(RenderImport(binding, source, true)) == Some(ImportForm(true, binding, source))
  {
    var pre := BindingClause(binding, true);
    var line := RenderImport(binding, source, true);
    var body := (pre + "require(") + ['\''] + source;
    CommonJsShape(binding, source);
    SuffixOfConcat(body, "')");
    assert line[..|line| - 2] == body;
    AfterLastDelimited(pre + "require(", '\'', source);
    var head := body[..|body| - |source|];
    assert head == (pre + "require(") + ['\''];
    assert "require(" + ['\''] == "require('";
    ConcatAssoc(pre, "require(", ['\'']);
    SuffixOfConcat(pre, "require('");
    assert head[..|head| - 9] == pre;
    if !binding.NoBinding? {
      CommonJsPrefix(binding);
      ParsePatternOf(binding);
    }
  }

  lemma EsShape(binding: Binding, source: string)
    ensures RenderImport(binding, source, false) == ((BindingClause(binding, false) + ['\'']) + source) + "'"
  {
    var pre := BindingClause(binding, false);
    assert SourceForm(source, false) == (['\''] + source) + "'";
    ConcatAssoc(pre, ['\''] + source, "'");
    ConcatAssoc(pre, ['\''], source);
  }

  /** The text in front of the quoted source in an ES line that binds something. */
  lemma EsPrefix(binding: Binding)
    requires !binding.NoBinding?
    ensures var pre := BindingClause(binding, false);
      |pre| >= 13 && StartsWith(pre, "import ") && EndsWith(pre, " from ") && pre[7..|pre| - 6] == Pattern(binding)
  {
    var pre := BindingClause(binding, false);
    var p := Pattern(binding);
    ConcatAssoc("import ", p, " from ");
    PrefixOfConcat("import ", p + " from ");
    SuffixOfConcat("import " + p, " from ");
    assert pre[7..|pre| - 6] == p;
  }

  lemma {:induction false} ParseEs(binding: Binding, source: string)
    requires Recoverable(binding) && '\'' !in source
    ensures ParseImport(RenderImport(binding, source, false)) == Some(ImportForm(false, binding, source))
  {
    var pre := BindingClause(binding, false);
    var line := RenderImport(binding, source, false);
    var body := (pre + ['\'']) + source;
    EsShape(binding, source);
    LastCharDiffers(line, "')");
    SuffixOfConcat(body, "'");
    assert line[..|line| - 1] == body;
    AfterLastDelimited(pre, '\'', source);
    var head := body[..|body| - |source|];
    assert head == pre + ['\''];
    SuffixOfConcat(pre, "'");
    assert head[..|head| - 1] == pre;
    if !binding.NoBinding? {
      EsPrefix(binding);
      ParsePatternOf(binding);
    }
  }

  /** Decoding a rendered import line gives back its dialect, binding and source. */
  lemma RenderImportRoundTrip(binding: Binding, source: string, commonJs: bool)
    requires Recoverable(binding) && '\'' !in source
    ensures ParseImport(RenderImport(binding, source, commonJs)) == Some(ImportForm(commonJs, binding, source))
  {
    if commonJs {
      ParseCommonJs(binding, source);
    } else {
      ParseEs(binding, source);
    }
  }

  /** The line `_makeImport` returns determines the flag's truthiness, how the assignee
      was read and the source. */
  lemma ImportLineRoundTrip(config: Config, assignee: JsValue, source: string)
    requires Recoverable(BindingOf(assignee)) && '\'' !in source
    ensures ParseImport(ImportLine(config, assignee, source))
         == Some(ImportForm(Truthy(config.useRequireSyntax), BindingOf(assignee), source))
  {
    RenderImportRoundTrip(BindingOf(assignee), source, Truthy(config.useRequireSyntax));
  }

  /** Two configurations and assignees give the same line only when they agree on the
      dialect, the binding and the source. */
  lemma ImportLineInjective(c1: Config, a1: JsValue, s1: string, c2: Config, a2: JsValue, s2: string)
    requires Recoverable(BindingOf(a1)) && '\'' !in s1
    requires Recoverable(BindingOf(a2)) && '\'' !in s2
    requires ImportLine(c1, a1, s1) == ImportLine(c2, a2, s2)
    ensures Truthy(c1.useRequireSyntax) == Truthy(c2.useRequireSyntax)
    ensures BindingOf(a1) == BindingOf(a2) && s1 == s2
  {
    ImportLineRoundTrip(c1, a1, s1);
    ImportLineRoundTrip(c2, a2, s2);
  }
}

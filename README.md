# generator-ko-spa view generator — a Dafny model

The `view` sub-generator of this Yeoman generator scaffolds one view of a Knockout
single-page application. Given a view name and a route it inserts `'<route>': '<name>'`
into the exported object of `routes.js` and instantiates up to four templates under
`web_modules/views/<name>/`: the `index.js` module, the HTML template
`<name>.html`, the controller `<name>.js` (skipped with `--template-only`) and its test
`<name>.test.js` (skipped as well when `TEST_FRAMEWORK` is `'none'`). Two persisted
settings steer it: `USE_REQUIRE_SYNTAX` chooses between CommonJS
(`const x = require('m')`, `module.exports = X`) and ES modules
(`import x from 'm'`, `export default X`), and `TEST_FRAMEWORK` picks the assertion
library the test file imports.

The model covers the deterministic part of `generators/view/index.js` and the
controller template `generators/view/templates/view.js`:

- `Js` gives the JavaScript values a setting, an option or an assignee can hold
  (`undefined`, `null`, booleans, strings, arrays of strings), their truthiness and their
  string conversion, and a `Completion` that records a thrown error.
- `ViewGenerator` holds `_makeImport` as an imperative method (`MakeImport`, a sequence of
  appends to a local string) proved equal to the declarative `ImportLine`;
  `_getTestEnvImport` (`TestEnvImport`); the capitalised class name (`CapitalizedName`);
  the quoted route-table entry (`RouteEntryFor`); and `writing()` recast as a pure
  function `WritingPlan` that returns the route entry, the ordered template writes and
  the rendered controller lines, or the TypeError an empty name raises.
- `ImportParse` is the partner of the import builder: a decoder for the four line shapes,
  and the proof that it recovers the dialect, the binding and the module source.
- `ViewTemplate` renders the controller module line by line and reads back what a
  rendered module declares and exports and which dialect its lines belong to.
- `Ejs` is the escaping an `<%= … %>` tag applies to the value it inserts: `&`, `<`,
  `>`, `"` and `'` become `&amp;`, `&lt;`, `&gt;`, `&#34;` and `&#39;`. The controller
  template inserts the class name through such a tag, so a view named `it's` declares
  `class It&#39;s {` (`RenderEscapesName`).
- `Strings` and `Wrappers` are helpers (prefix/suffix tests, `Array.prototype.join`, the
  splitting that undoes it, `Option`).

Settings are passed in as a `Config` value instead of being read from the Yeoman store.

Properties worth noting that the proofs bring out:

- An empty array assignee is truthy, so it produces `const {  } = require('m')`.
- `template-only` is compared with `!== true`; only the boolean `true` suppresses the
  controller, the string `"true"` does not (`TemplateOnlyIsStrict`).
- An unset `TEST_FRAMEWORK` is not `'none'`, so the test file is still written, while
  `_getTestEnvImport` yields `undefined` for it (`UnsetFrameworkStillWritesTest`).
- A view named `index` gets its controller written to `web_modules/views/index/index.js`,
  the same path as the `index.js` module written just before; the planned
  destinations are pairwise distinct exactly when the name is not `index` or the run is
  template-only (`PlanDestinationsDistinct`). Destinations are compared as path
  strings: `index` is the only name whose two strings collide, while other names that
  resolve to the same file, such as `./index` or `x/../index`, give distinct strings and
  still make the controller overwrite the index module on disk, because path
  normalisation is not part of this model.
- An empty name throws at `name[0].toUpperCase()` before the route file is touched
  (`EmptyNameThrows`).
- Under a truthy `USE_REQUIRE_SYNTAX` the mocha test imports with
  `const { expect } = require('chai')`, and otherwise with `import { expect } from 'chai'`
  (`TestEnvImport`, `ProfileExampleController`).

## Model

| member | source | states |
|---|---|---|
| `Js.Truthy` | generators/view/index.js:117-129 | the tests `if (assignee)` and `useRequire ? … : …`: every array is truthy, a string is truthy iff it is non-empty, and a truthy non-array converts to a non-empty string |
| `ViewGenerator.BindingOf` | generators/view/index.js:117-125 | a falsy assignee binds nothing, an array (and only an array) binds exactly its items, in order, any other truthy value binds its non-empty string form |
| `ViewGenerator.ImportLine` | generators/view/index.js:117-131 | the returned line always ends in the source form of line 129, and is exactly that form iff the assignee is falsy |
| `ViewGenerator.MakeImport` | generators/view/index.js:112-132 | the line built by the successive appends is the declarative import line for the assignee, source and flag |
| `ViewGenerator.ImportWithoutAssignee` | generators/view/index.js:117-129 | a falsy assignee gives exactly `require('S')` under a truthy flag and `'S'` otherwise: no keyword, no binding |
| `ViewGenerator.ImportWithSingleAssignee` | generators/view/index.js:117-129 | a truthy non-array assignee X gives `const X = require('S')` or `import X from 'S'` |
| `ViewGenerator.ImportWithArrayAssignee` | generators/view/index.js:117-129 | an array assignee gives `{ ` + items joined by `, ` + ` }` as the binding, in either dialect |
| `ViewGenerator.NamedImportCommonJs` | generators/view/index.js:118-129 | the CommonJS line for named items is `const { a, b } = require('S')` |
| `ViewGenerator.NamedImportEs` | generators/view/index.js:118-129 | the ES line for named items is `import { a, b } from 'S'` |
| `ViewGenerator.ImportWithEmptyArray` | generators/view/index.js:117-122 | the empty array is truthy and yields `{  }` with two spaces |
| `ViewGenerator.ImportDialectNotMixed` | generators/view/index.js:113-129 | for a line that binds something, it starts with `const ` iff the flag is truthy, with `import ` iff it is not, and ends in `')` iff it is truthy |
| `ViewGenerator.TestEnvImport` | generators/view/index.js:103-110 | `'mocha'` gives the `{ expect }` import of `chai`, `'tape'` the default `test` import of `tape`, in the flag's dialect; every other value gives `undefined` |
| `ViewGenerator.ChaiImportLine` | generators/view/index.js:106 | the mocha import line is `const { expect } = require('chai')` or `import { expect } from 'chai'` |
| `ViewGenerator.TapeImportLine` | generators/view/index.js:108 | the tape import line is `const test = require('tape')` or `import test from 'tape'` |
| `ViewGenerator.CapitalizedName` | generators/view/index.js:46 | an empty name throws a TypeError; otherwise the result has the name's length, the same characters after the first, and a first character that is the upper-case form of a lower-case ASCII letter and unchanged otherwise |
| `ViewGenerator.CapitalizeIdempotent` | generators/view/index.js:46 | capitalising a capitalised name changes nothing |
| `ViewGenerator.Quoted` | generators/view/index.js:52 | the literal is the string between two single quotes, unescaped |
| `ViewGenerator.RouteEntryFor` | generators/view/index.js:52 | the key is the route and the value the view name, each wrapped in single quotes |
| `ViewGenerator.PlanRoute` | generators/view/index.js:50-52 | the plan inserts the entry `'route'` mapped to `'name'` |
| `ViewGenerator.WritingPlan` | generators/view/index.js:43-98 | `writing()` throws iff the name is empty; otherwise it inserts the quoted route entry, writes `index.js` and `<name>.html` first, writes 2 to 4 files in all and renders at most one controller, in the configured dialect (details in `PlanFiles`, `PlanSize`, `PlanController`, `PlanDestinationsDistinct`) |
| `ViewGenerator.FullPlanWrites` | generators/view/index.js:55-98 | with the controller and a test framework the destinations are index, html, controller and test, in that order |
| `ViewGenerator.EmptyNameThrows` | generators/view/index.js:43-46 | with an empty name `writing()` ends in a TypeError before any route entry or file |
| `ViewGenerator.PlanFiles` | generators/view/index.js:55-98 | index.js and `<name>.html` are always written; `<name>.js` iff template-only is not the boolean true; `<name>.test.js` iff additionally the framework is not the string `'none'`; no other template |
| `ViewGenerator.PlanSize` | generators/view/index.js:55-98 | 2 writes iff template-only, 3 iff not template-only and framework `'none'`, 4 otherwise |
| `ViewGenerator.PlanController` | generators/view/index.js:74-83 | the controller is rendered once iff it is written; it is the controller template rendered with the configured `USE_REQUIRE_SYNTAX` and the capitalised name, so it holds CommonJS marker lines iff that setting is truthy and ES marker lines iff it is not, and declares and exports exactly the capitalised name as the `<%=` tag escapes it |
| `ViewGenerator.ControllerMatchesTestImport` | generators/view/index.js:74-110 | when controller and test are both written for mocha or tape, the controller uses CommonJS iff the test's framework import starts with `const `, and ES modules iff it starts with `import ` |
| `ViewGenerator.ControllerPathIsIndexPath` | generators/view/index.js:57-77 | the controller path equals the index module's path iff the view is named `index` |
| `ViewGenerator.PlanDestinationsDistinct` | generators/view/index.js:55-98 | the planned destination strings are pairwise distinct iff the name is not `index` or the run is template-only |
| `ViewGenerator.UnsetFrameworkStillWritesTest` | generators/view/index.js:84-110 | with `TEST_FRAMEWORK` unset the test file is written and the test-framework import is `undefined` |
| `ViewGenerator.TemplateOnlyIsStrict` | generators/view/index.js:74 | the string `"true"` writes the controller; only the boolean `true` suppresses it |
| `ViewGenerator.ProfileClassName` | generators/view/index.js:46 | `profile` capitalises to `Profile` |
| `ViewGenerator.ProfileExampleWrites` | generators/view/index.js:43-98 | view `profile` at `/profile` with mocha: entry `'/profile'`→`'profile'` and the four destinations in order |
| `ViewGenerator.ProfileExampleController` | generators/view/index.js:74-110 | the same view under require syntax: the controller's exact lines with class `Profile`, and the `chai` import line |
| `ImportParse.ParsePatternOf` | generators/view/index.js:119-125 | for a recoverable binding (a default name not starting with `{`, named items non-empty and free of commas), the default name or list of names written between keyword and separator reads back as itself |
| `ImportParse.ParseCommonJs` | generators/view/index.js:117-129 | for a recoverable binding (a default name not starting with `{`, named items non-empty and free of commas) and a source without a single quote, the CommonJS line decodes to that binding and source |
| `ImportParse.ParseEs` | generators/view/index.js:117-129 | for a recoverable binding (a default name not starting with `{`, named items non-empty and free of commas) and a source without a single quote, the ES line decodes to that binding and source |
| `ImportParse.RenderImportRoundTrip` | generators/view/index.js:112-132 | for a recoverable binding (a default name not starting with `{`, named items non-empty and free of commas) and a source without a single quote, decoding the rendered line gives back its dialect, binding and source |
| `ImportParse.ImportLineRoundTrip` | generators/view/index.js:112-132 | for a recoverable binding (a default name not starting with `{`, named items non-empty and free of commas) and a source without a single quote, decoding the `_makeImport` line gives back the flag's truthiness, the assignee as read and the source |
| `ImportParse.ImportLineInjective` | generators/view/index.js:112-132 | two calls whose bindings are recoverable and whose sources hold no single quote give the same line only when they agree on the dialect, the binding and the source |
| `Js.ToJsString` | generators/view/index.js:124 | `String(x)` of the `else` branch: a string is itself, a boolean is `"true"` or `"false"`, a one-item array is its item and the empty array is the empty string |
| `Strings.Join` | generators/view/index.js:121 | `join(', ')`: the empty list joins to the empty string; otherwise the result starts with the first item and ends with the last, with room for a separator between them when there are two or more |
| `Strings.SplitJoin` | generators/view/index.js:121 | splitting at `, ` undoes `join(', ')` on a non-empty list of items free of commas (an item may be empty) |
| `ViewTemplate.Render` | generators/view/templates/view.js:1-19 | the module has 12 lines plus the strict-mode line under a truthy flag; its class line carries the escaped name and the nine class-body lines precede the export |
| `ViewTemplate.HeaderIffUseRequire` | generators/view/templates/view.js:1-3 | the `'use strict'` line is present, and first, exactly when `USE_REQUIRE_SYNTAX` is truthy |
| `ViewTemplate.BodyIndependentOfFlag` | generators/view/templates/view.js:4-14 | without its dialect lines the module is the fixed class block (constructor setting `this.ready`, empty `dispose`) around the escaped name, the same for both flag values |
| `ViewTemplate.ExportFormFollowsFlag` | generators/view/templates/view.js:15-19 | the last line is `module.exports = <Name>` under a truthy flag and `export default <Name>` otherwise, `<Name>` escaped by the `<%=` tag |
| `ViewTemplate.ExportsTheDeclaredClass` | generators/view/templates/view.js:5-18 | exactly one export statement and one class declaration, both naming the escaped class name |
| `ViewTemplate.DialectNotMixed` | generators/view/templates/view.js:1-19 | CommonJS marker lines appear iff the flag is truthy and ES marker lines iff it is not |
| `ViewTemplate.RenderEscapesName` | generators/view/templates/view.js:5-16 | the class name `It's` is emitted as `It&#39;s` in the class line and the export |
| `Ejs.EscapeHtml` | generators/view/templates/view.js:5-18 | the text an `<%= name %>` tag emits is never shorter than the name; its content is pinned down by `UnescapeEscape`, `EscapeLeavesNoMarkup` and `EscapePlain` |
| `Ejs.UnescapeEscape` | generators/view/templates/view.js:5 | the `<%=` escaping loses nothing: replacing the five references by their characters gives back the inserted name |
| `Ejs.EscapeInjective` | generators/view/templates/view.js:5 | different class names are emitted as different texts |
| `Ejs.EscapeLeavesNoMarkup` | generators/view/templates/view.js:5 | no `<`, `>`, `"` or `'` appears in the emitted name |
| `Ejs.EscapePlain` | generators/view/templates/view.js:5 | a name without `&`, `<`, `>`, `"` and `'` is emitted unchanged |

## Left out

- `prompting()` and `_p` (index.js lines 21-41 and 101): interactive, asynchronous input; the model takes the name and the route as given strings.
- The route-table patch itself (index.js lines 47-53): parsing `routes.js`, locating `module.exports`, inserting the property and reprinting happen inside the `ast-query` library with formatting options (`utils/codegen-options`) that are not part of this model; only the quoted key and value handed to it are modelled. Duplicate routes are therefore not modelled either.
- The Yeoman `fs.read`, `fs.write`, `copyTpl`, `destinationPath`, `templatePath` and the config store: file-system and framework wrappers; the plan lists template/destination pairs and the settings are parameters.
- The templates `index.js`, `view.html` and `view.test.js` are not part of this model, so neither are the variables `writing()` passes them (`TEMPLATE_ONLY`, `VIEW_NAME`, `ROUTE`, the two helpers).
- `ViewGenerator.WritingPlan`: the plan assumes `routes.js` exists and holds a `module.exports` assignment. Otherwise `writing()` throws at index.js lines 48-51, after the class name is computed and before any template is written. Reading and parsing that file is not part of this model.
- EJS whitespace: `-%>` newline trimming and the two spaces after `-%>` on view.js line 17 are not modelled; the rendered module is a list of lines, not bytes.
- `ViewGenerator.CapitalizedName`: `toUpperCase` is modelled on ASCII letters only; every other character is kept, so full Unicode case mapping (including mappings that change the length, such as `ß` to `SS`) and UTF-16 surrogate halves are not captured.
- `Js.JsValue`: numbers, objects and arrays holding non-strings are not modelled as setting, option or assignee values.
- `ViewGenerator.ImportDialectNotMixed`: stated for lines that bind something; the falsy-assignee lines are covered by `ImportWithoutAssignee`.
- `ImportParse.ImportLineRoundTrip`, `ImportParse.ParsePatternOf`, `ImportParse.ParseCommonJs`, `ImportParse.ParseEs`, `ImportParse.RenderImportRoundTrip` and `ImportParse.ImportLineInjective`: hold for sources without a single quote and bindings whose default name does not start with `{` and whose named items are non-empty and comma-free, because the line format, which does not escape, cannot be decoded otherwise. For example the default name `{ a }` (`Str("{ a }")`) and the named list `StrArray(["a"])` give the same line.
- `ViewTemplate.Render`, `ViewTemplate.HeaderIffUseRequire`, `ViewTemplate.ExportsTheDeclaredClass`, `ViewTemplate.DialectNotMixed`, `ViewTemplate.BodyIndependentOfFlag` and `ViewGenerator.PlanController`: the class name is one element of the line list, so these line properties describe the emitted file only for class names without line terminators. View names are not checked and the `<%=` escaping keeps line breaks, so a name such as `a\nexport default B` is emitted as several lines; under a truthy `USE_REQUIRE_SYNTAX` that adds the line `export default B {` to a CommonJS module, mixing the dialects and adding a second export, which the model's marker and export readers do not see.

# lest LuaLS annotation generator — a Dafny model

lest is a Lua testing framework. Its documentation is written once as
TypeScript data: functions, classes and matchers, each described by
*properties* (a typed, named, optionally documented value). Two consumers
turn that data into text.

- The LuaLS annotation generator writes a `---@meta` file of LuaLS
  annotations. It contains:
  - one block per class: the `---@class` line, its description, its
    `---@field` lines, the declaration `<name> = {}`, then the
    function-typed fields as methods;
  - one declaration per top-level function;
  - the two matcher classes, `lest.Matchers` and `lest.InverseMatchers`.

  Every function declaration is its description comments, its `---@param`
  and `---@return` lines and a `function <prefix><name>(<params>) end`
  signature. It is repeated once per alias.
- The documentation site renders human-readable signatures such as
  `fun(a: string): number`.

This project models the following parts:

- the property data model and its three kind guards (`property.dfy`);
- the LuaLS type renderer (`lua_ls_type.dfy`);
- the document builder classes (`annotation_builder.dfy`);
- the assembly of the whole annotation file (`document.dfy`);
- the older draft renderer `convertType` (`convert_type.dfy`), both as
  written and with its type guards read as intended (see "## Findings");
- the older string-building generators: description, combine, function,
  class and matchers (`generators.dfy`);
- both copies of the site's signature renderers (`site_renderers.dfy`).

`text.dfy` holds the JavaScript string behaviour these rely on:

- `Array.prototype.join`;
- `${undefined}` printing `undefined` while `join` prints an undefined
  element as the empty string;
- `split("\n")`.

The code is modelled in the form it is written in:

- **Pure renderers** are Dafny functions, and the properties are lemmas.
- **The three builders** are classes. A `DocumentBuilder` holds a
  `seq<string>` of entries. `ClassBuilder` and `AnnotationBuilder` each own
  one; this models the subclassing by composition. Each method states its
  new state, including the builder's `addDescription` and `addClass`
  loops.
- **The generator script** (`index.ts`) is the method
  `AnnotationDocument.BuildDocument`. It is proved to produce exactly
  `DocumentLines`, and the lemmas `ClassLayout`, `MatchersLayout` and
  `DocumentLayout` state the layout of that document.
- **The site's `renderArrayType` loop** is a method proved against the
  function `ArrayTypeText`.
- **The matcher loop** (`matchers.ts`) is a method proved against the
  function `MatcherProperties`.

A JavaScript `TypeError` becomes a precondition. The model does not give
it a result. These are the cases:

| Precondition | Input that throws |
|---|---|
| `Renderable` | an array property without `items` |
| `DraftRenderable` | in the corrected draft, also a table without `fields` |
| `Emittable` | a class without `fields` in `index.ts` |
| `description.Some?` | a function without a description in `generators/function.ts` |
| `ClassGeneratable` | the class generator's inputs |

Where the code differs from its tests or its documentation, the model
follows the code. These are the places:

- `annotationBuilder.ts:23`: a function without a description gets the
  comment line `--- undefined` (`AnnotationBuilding.AbsentDescriptionExample`).
- `luals/convertType.ts:21` and `:27`: the draft calls array and table
  guards on a namespace that defines neither, so as written every
  non-function node faults. This is the one entry under "## Findings".
  The rest of the model, and the class generator built on the draft, use
  the corrected draft.
- `luals/convertType.ts:4-7`: a function type with neither a parameter nor a
  return list renders as `function`. Its own test
  (`convertType.test.ts:79-91`) expects `fun()`
  (`ConvertTypeDraft.BareFunctionDisagreement`).
- `luals/convertType.ts:16-18`: the draft tests whether the *joined* return
  text is empty. So a single return value whose type is the empty string
  loses its `:`, where the current renderer keeps it
  (`ConvertTypeDraft.EmptyReturnTypeDisagreement`).
- `generators/class.ts:17`: the class name is passed to a function that
  takes one argument, so methods are declared without a `test:` prefix.
  `class.test.ts:61` expects the prefix (`GeneratorDraft.TestClassAnnotation`,
  `GeneratorDraft.ClassMethodOccurs`).
- `generators/class.ts:14`: a multi-line field description prints
  `,`-joined. The document builder (`annotationBuilder.ts:81`) joins it with
  spaces (`GeneratorDraft.FieldDescriptionDisagreement`).
- `generators/function.ts:25`: the draft writes the raw `type` string, so a
  callback parameter reads `function` rather than `fun()`
  (`GeneratorDraft.RawParamAgainstBuilder`).
- `index.ts:17-22`: function-typed fields are cast to functions.
  - Their name goes through a template string, so an absent name prints
    `undefined`.
  - They have no aliases.
  - A class's `methods` list is not read by `index.ts` at all.
- `annotationBuilder.test.ts:159-168` calls `addClassDeclaration` and `addField`
  on the document builder, which has neither. The "no current class" error
  those tests expect cannot arise in the code.
- `site/src/components/FunctionRenderer/helpers.ts:10`: nested array items
  print `[object Object][]` (`FunctionRendererHelpers.NestedItemsExample`).
  The newer renderer prints one `[]` per level.

## Model

| member | source | states |
|---|---|---|
| Properties.KindsExclusive | packages/docs/src/interfaces/property.ts:27-31 | at most one of the function, array and table guards holds for any property |
| TypeRenderer.ScalarIsVerbatim | packages/luals-annotations/src/luaLSType.ts:45-59 | a property whose type is not one of the three kind tags always renders, and renders as its type string unchanged |
| TypeRenderer.BareFunctionType | packages/luals-annotations/src/luaLSType.ts:16-27 | a function type with no parameters and no returns renders exactly `fun()` |
| TypeRenderer.OptionalMarker | packages/luals-annotations/src/luaLSType.ts:11-14 | a parameter text is the name, `?` exactly when the parameter is optional, the separator, then the parameter's own type text, and nothing else |
| TypeRenderer.ArrayNesting | packages/luals-annotations/src/luaLSType.ts:29-35 | nested array items render as the innermost type name followed by one `[]` per nesting level plus one |
| TypeRenderer.ArrayType | packages/luals-annotations/src/luaLSType.ts:45-59 | an array property with items renders as its innermost type followed by depth+1 bracket pairs |
| TypeRenderer.GenericTable | packages/luals-annotations/src/luaLSType.ts:37-43 | a table without fields renders as the bare word `table` |
| TypeRenderer.TableListsEveryField | packages/luals-annotations/src/luaLSType.ts:37-43 | every field of a table type occurs in its rendered record as `name:type` |
| TypeRenderer.MetadataIgnored | packages/luals-annotations/src/luaLSType.ts:45-59 | a property's name, description and optional flag never change its type text |
| TypeRenderer.ReturnNamesDropped | packages/luals-annotations/src/luaLSType.ts:16-27 | renaming the return values of a function type leaves its type text unchanged |
| TypeRenderer.ArrayExamples | packages/luals-annotations/src/luaLSType.test.ts:5-50 | `any[]`, `lest.MockResult[]` and `any[][]` for the tested array properties |
| TypeRenderer.FunctionTypeExample | packages/luals-annotations/src/luaLSType.test.ts:53-76 | the tested function type renders `fun(a:string):number` |
| TypeRenderer.NoReturnsExamples | packages/luals-annotations/src/luaLSType.test.ts:79-110 | the tested function types without returns render `fun()` and `fun(a:string)` |
| TypeRenderer.OptionalParameterExample | packages/luals-annotations/src/luaLSType.test.ts:113-135 | an optional second parameter renders `fun(a:string,b?:string)` |
| TypeRenderer.VerbatimExamples | packages/luals-annotations/src/luaLSType.test.ts:138-208 | a literal union is kept verbatim and a field-less table is `table` |
| TypeRenderer.TableTestFieldTypes | packages/luals-annotations/src/luaLSType.test.ts:153-194 | the scalar fields of the tested table render `foo:string`, `bar:number`, `baz:boolean` |
| TypeRenderer.TableTestFunctionField | packages/luals-annotations/src/luaLSType.test.ts:153-194 | the function field of the tested table renders `qux:fun(a:string):number` |
| TypeRenderer.TableExample | packages/luals-annotations/src/luaLSType.test.ts:153-194 | the tested table renders `{foo:string,bar:number,baz:boolean,qux:fun(a:string):number}` |
| ConvertTypeDraft.RenderedNonEmpty | packages/luals-annotations/src/luaLSType.ts:45-59 | a property with a non-empty type string never renders as the empty string |
| ConvertTypeDraft.DraftAgreesWithRenderer | packages/luals-annotations/src/luals/convertType.ts:3-32 | the corrected draft accepts and renders identically to the current renderer every property that, at no depth, is a function type without either list, has exactly one empty-typed return value, is an array without items or is a table without fields |
| ConvertTypeDraft.AsWrittenDomain | packages/luals-annotations/src/luals/convertType.ts:3-32 | as written, the draft produces a text exactly on properties made of function types alone, and there it equals the corrected draft's text |
| ConvertTypeDraft.ScalarFaultsAsWritten | packages/luals-annotations/src/luals/convertType.ts:21 | a plain `string` property faults as written, and renders `string` in the corrected draft |
| ConvertTypeDraft.BareFunctionDisagreement | packages/luals-annotations/src/luals/convertType.ts:4-7 | a function type with neither list renders `function` in the draft and `fun()` in the current renderer |
| ConvertTypeDraft.EmptyReturnTypeDisagreement | packages/luals-annotations/src/luals/convertType.ts:16-18 | one return of empty type: the corrected draft renders `fun()`, the current renderer `fun():`; the draft as written faults on it |
| AnnotationBuilding.DescriptionComments | packages/luals-annotations/src/annotationBuilder.ts:23-25 | a function's description gives one comment line per list element, and exactly one line otherwise (an absent description too) |
| AnnotationBuilding.FunctionNames | packages/luals-annotations/src/annotationBuilder.ts:19 | the declared names are never empty and start with the function's own name |
| AnnotationBuilding.DeclarationBlocks | packages/luals-annotations/src/annotationBuilder.ts:9-29 | the declaration splits into one block per name of `[name, ...aliases]`, in order; each block is the description, parameter and return lines, then that name's signature |
| AnnotationBuilding.DeclarationLines | packages/luals-annotations/src/annotationBuilder.ts:21-28 | whatever line breaks the texts hold, the declaration's lines are, name by name, the lines of each entry of that name's block |
| AnnotationBuilding.ParamOptionalMarker | packages/luals-annotations/src/annotationBuilder.ts:13 | the `@param` line carries `?` right after the name exactly when the parameter is optional |
| AnnotationBuilding.TopLevelBlockExample | packages/luals-annotations/src/annotationBuilder.test.ts:4-35 | the tested function's block is its description, `---@param a string`, `---@return number b`, `function test(a) end` |
| AnnotationBuilding.ClassSignatureExamples | packages/luals-annotations/src/annotationBuilder.test.ts:38-156 | in class `test`, a method is declared `test:test(a)` and a static method `test.test(a)` |
| AnnotationBuilding.MultiLineDescriptionExample | packages/luals-annotations/src/annotationBuilder.test.ts:87-107 | a two-line description gives the lines `--- Hello!` and `--- World!` |
| AnnotationBuilding.AbsentDescriptionExample | packages/luals-annotations/src/annotationBuilder.ts:23 | a function without a description still gets the single comment `--- undefined` |
| AnnotationBuilding.FieldExample | packages/luals-annotations/src/annotationBuilder.test.ts:110-129 | a multi-line field description is space-joined on its `@field` line |
| AnnotationBuilding.DocumentBuilder.constructor | packages/luals-annotations/src/annotationBuilder.ts:31-32 | a new buffer holds no entries |
| AnnotationBuilding.DocumentBuilder.Add | packages/luals-annotations/src/annotationBuilder.ts:34-36 | the entry is appended and nothing else changes |
| AnnotationBuilding.DocumentBuilder.Build | packages/luals-annotations/src/annotationBuilder.ts:38-40 | the built text's lines are exactly the lines of the entries, in order |
| AnnotationBuilding.DocumentBuilder.BuildToLines | packages/luals-annotations/src/annotationBuilder.ts:42-44 | returns the entries as they are |
| AnnotationBuilding.ClassBuilder.constructor | packages/luals-annotations/src/annotationBuilder.ts:56-64 | a class block starts with `---@class <name>` followed by the class description comments (none when absent or empty) |
| AnnotationBuilding.ClassBuilder.AddComment | packages/luals-annotations/src/annotationBuilder.ts:66-68 | appends exactly one `--- ` comment |
| AnnotationBuilding.ClassBuilder.AddDescription | packages/luals-annotations/src/annotationBuilder.ts:70-73 | appends one comment per description line, nothing for an absent or empty description |
| AnnotationBuilding.ClassBuilder.AddFunction | packages/luals-annotations/src/annotationBuilder.ts:75-77 | appends the declaration with the class name as prefix, `.` when static |
| AnnotationBuilding.ClassBuilder.AddField | packages/luals-annotations/src/annotationBuilder.ts:79-83 | appends the field's `@field` line |
| AnnotationBuilding.ClassBuilder.AddDeclaration | packages/luals-annotations/src/annotationBuilder.ts:85-87 | appends `<name> = {}` |
| AnnotationBuilding.AnnotationBuilder.constructor | packages/luals-annotations/src/annotationBuilder.ts:91-94 | a new document holds exactly `---@meta` |
| AnnotationBuilding.AnnotationBuilder.AddFunction | packages/luals-annotations/src/annotationBuilder.ts:96-98 | appends the top-level declaration, without prefix |
| AnnotationBuilding.AnnotationBuilder.AddClass | packages/luals-annotations/src/annotationBuilder.ts:100-102 | appends every entry of the class block, in order |
| AnnotationDocument.FieldSplit | packages/luals-annotations/src/index.ts:17-18 | methods and data fields together are the class's fields as a multiset, each field in exactly one, methods function-typed and data fields not |
| AnnotationDocument.AsFunction | packages/luals-annotations/src/index.ts:17-22 | a field read as a function keeps its parameters, returns and description, has no aliases, and is declared under its printed name |
| AnnotationDocument.ClassLayout | packages/luals-annotations/src/index.ts:11-24 | a class block has one entry per field plus two: `@class` line, the class description comments, every data field's `@field` line in order, the declaration, then every function-typed field declared as a method |
| AnnotationDocument.ClassesEntriesSnoc | packages/luals-annotations/src/index.ts:11-24 | one more class adds its block after the earlier ones |
| AnnotationDocument.DeclarationPrefixes | packages/luals-annotations/src/annotationBuilder.ts:16-17 | methods of a named class get `<class>:`; matchers get `lest.Matchers.` and `lest.InverseMatchers.` |
| AnnotationDocument.MatchersLayout | packages/luals-annotations/src/index.ts:30-44 | the matcher class is its header, the `never` field of type `lest.InverseMatchers`, its declaration, then one static declaration per matcher |
| AnnotationDocument.InverseMatchersLayout | packages/luals-annotations/src/index.ts:46-53 | the inverse matcher class is its header, no fields, its declaration, then one static declaration per matcher |
| AnnotationDocument.DocumentLayout | packages/luals-annotations/src/index.ts:9-53 | the document is `---@meta`, the class blocks, one entry per top-level function, then the two matcher classes |
| AnnotationDocument.ExampleFieldSplit | packages/luals-annotations/src/index.ts:17-18 | a function field and a string field split into one method and one data field |
| AnnotationDocument.ExampleMethodDeclaration | packages/luals-annotations/src/index.ts:22 | an undescribed field method is declared `--- undefined` then `function test:f() end` |
| AnnotationDocument.ClassExample | packages/luals-annotations/src/index.ts:11-24 | the function field moves after the declaration, and missing descriptions print `undefined` |
| AnnotationDocument.AddFields | packages/luals-annotations/src/index.ts:20 | appends one `@field` line per field, in order |
| AnnotationDocument.AddMethods | packages/luals-annotations/src/index.ts:22 | appends one method declaration per function, in order |
| AnnotationDocument.EmitClass | packages/luals-annotations/src/index.ts:12-23 | appends exactly the class's block to the document |
| AnnotationDocument.EmitMatcherClass | packages/luals-annotations/src/index.ts:31-44 | appends a class block whose methods are the matchers, declared static |
| AnnotationDocument.EmitClasses | packages/luals-annotations/src/index.ts:11-24 | appends the blocks of all classes, in order |
| AnnotationDocument.EmitNextClass | packages/luals-annotations/src/index.ts:11-24 | one loop step appends the next class's block |
| AnnotationDocument.EmitFunctions | packages/luals-annotations/src/index.ts:26-28 | appends one declaration per top-level function, in order |
| AnnotationDocument.BuildDocument | packages/luals-annotations/src/index.ts:9-53 | the built document is exactly the layout `DocumentLayout` describes |
| GeneratorDraft.DescriptionLines | packages/luals-annotations/src/generators/description.ts:1-10 | a description list of single-line elements splits into exactly one `--- ` line per element, in order |
| GeneratorDraft.EmptyDescription | packages/luals-annotations/src/generators/description.ts:6 | an empty description list gives the empty annotation |
| GeneratorDraft.NonEmpty | packages/luals-annotations/src/generators/combine.ts:2 | the kept parts are all non-empty and no more numerous than the input |
| GeneratorDraft.CombineCons | packages/luals-annotations/src/generators/combine.ts:1-3 | an empty part is skipped; a non-empty part is followed by a line break exactly when something non-empty follows |
| GeneratorDraft.CombineOfEmpties | packages/luals-annotations/src/generators/combine.ts:1-3 | only empty parts combine to the empty string |
| GeneratorDraft.CombineSingle | packages/luals-annotations/src/generators/combine.ts:1-3 | one non-empty part among empty ones is returned unchanged |
| GeneratorDraft.NonEmptyKeeps | packages/luals-annotations/src/generators/combine.ts:2 | no non-empty part is dropped |
| GeneratorDraft.CombineContains | packages/luals-annotations/src/generators/combine.ts:1-3 | every non-empty part occurs in the combined text |
| GeneratorDraft.NonEmptyOfNonEmpties | packages/luals-annotations/src/generators/combine.ts:2 | filtering a list without empty parts leaves it unchanged |
| GeneratorDraft.FunctionAnnotationBlocks | packages/luals-annotations/src/generators/function.ts:32-38 | with or without aliases, the annotation is one block per name of `[name, ...aliases]`, each the full annotation and that name's signature |
| GeneratorDraft.EmptyAliasesAsAbsent | packages/luals-annotations/src/generators/function.ts:32-38 | an empty alias list gives the same text as no alias list |
| GeneratorDraft.SignatureOccurs | packages/luals-annotations/src/generators/function.ts:7-39 | the signature of every name occurs in the function annotation |
| GeneratorDraft.ParamLineOccurs | packages/luals-annotations/src/generators/function.ts:25-30 | every parameter's `@param` line occurs in the function annotation |
| GeneratorDraft.RawParamAgainstBuilder | packages/luals-annotations/src/generators/function.ts:25 | for plain types the draft's `@param` line equals the builder's; a callback parameter reads `function` here and `fun()` there |
| GeneratorDraft.ClassHeaderOccurs | packages/luals-annotations/src/generators/class.ts:9-19 | the class annotation holds its `@class` line and its declaration |
| GeneratorDraft.ClassFieldOccurs | packages/luals-annotations/src/generators/class.ts:13-15 | every field's `@field` line occurs in the class annotation |
| GeneratorDraft.ClassMethodOccurs | packages/luals-annotations/src/generators/class.ts:17 | every method's signature occurs in the class annotation, written with its bare name |
| GeneratorDraft.TestMethodAnnotation | packages/luals-annotations/src/generators/class.test.ts:15-26 | the tested method gives its description line, its `@return` line and `function test() end` |
| GeneratorDraft.TestClassAnnotation | packages/luals-annotations/src/generators/class.test.ts:5-63 | with the corrected draft the tested class gives description, `@class`, `@field`, declaration and method annotation, with no `test:` prefix; as written its `string` field faults |
| GeneratorDraft.FieldDescriptionDisagreement | packages/luals-annotations/src/generators/class.ts:14 | a two-line field description is `,`-joined here and space-joined by the builder |
| GeneratorDraft.MatcherProperty | packages/luals-annotations/src/generators/matchers.ts:6-14 | the recorded property is function-typed, carries the given name and the matcher's description, parameters and returns |
| GeneratorDraft.MatcherPropertiesOf | packages/luals-annotations/src/generators/matchers.ts:16-19 | one property per name of `[name, ...aliases]` |
| GeneratorDraft.MatcherPropertiesShape | packages/luals-annotations/src/generators/matchers.ts:4-20 | the loop records one function-typed property per matcher name |
| GeneratorDraft.CollectMatcherProperties | packages/luals-annotations/src/generators/matchers.ts:4-20 | the nested loops collect exactly the properties of every name of every matcher, in order |
| GeneratorDraft.MakeMatcherClass | packages/luals-annotations/src/generators/matchers.ts:3-27 | the class is `lest.Matchers`, described `Matchers for expect()`, with no fields and exactly the matcher functions as methods |
| SiteRenderers.RenderArrayType | packages/site/src/helpers/renderers.ts:10-18 | the loop produces the innermost type name (or `undefined`) followed by one `[]` per nesting level plus one |
| SiteRenderers.ArrayTypeAgreesWithRenderer | packages/site/src/helpers/renderers.ts:10-18 | for present items the site's array text equals the LuaLS renderer's |
| SiteRenderers.RenderTypeVerbatim | packages/site/src/helpers/renderers.ts:20-30 | anything but a function or an array, a table included, shows its type string |
| SiteRenderers.FunctionTypeShape | packages/site/src/helpers/renderers.ts:3-8 | a function type is `fun(` parameters `)`, then `: ` and the returns exactly when there are returns |
| SiteRenderers.ParameterEntryShape | packages/site/src/helpers/renderers.ts:32-35 | a parameter entry is the name, `?` exactly when optional, `: `, then the type, and nothing else |
| SiteRenderers.ReturnEntryShape | packages/site/src/helpers/renderers.ts:37-38 | a return entry is its type followed by `?` when optional, and exactly its type otherwise |
| SiteRenderers.FunctionTypeExample | packages/site/src/helpers/renderers.ts:3-8 | a one-parameter, one-return function shows `fun(a: string): number` |
| FunctionRendererHelpers.SingleBracketPair | site/src/components/FunctionRenderer/helpers.ts:10 | an array always gets exactly one trailing bracket pair, after its printed items |
| FunctionRendererHelpers.NestedItemsExample | site/src/components/FunctionRenderer/helpers.ts:10 | nested items print `[object Object][]` |
| FunctionRendererHelpers.AgreesWithSiteRenderer | site/src/components/FunctionRenderer/helpers.ts:1-30 | where every array holds plain type names, the older helpers and the newer site renderer produce the same text |

## Findings

| source | as written | input that shows it | evidently intended | confidence | as-written member | corrected member |
|---|---|---|---|---|---|---|
| packages/luals-annotations/src/luals/convertType.ts:21-27 | calls the array and table guards on the imported `Docs` namespace, which defines only the function guard (`json-docs/index.ts:43`), so every non-function node faults | `{type: "string"}`: faults as written instead of giving `string` | the guards of `property.ts:29-31`, as `class.test.ts:45-52` expects a `---@field test` line for its `string` field | high; not executed | ConvertTypeDraft.ScalarFaultsAsWritten | ConvertTypeDraft.DraftAgreesWithRenderer |

## Left out

- `index.ts:55-68` is left out. It prints the document in debug mode or
  writes it to the path given on the command line. That is I/O; the model
  ends with the built document.
- The documentation data itself is not modelled. It lives in the
  `@lest/docs` modules (`packages/docs/src/functions/index.ts` and the
  types and matchers modules). The classes, functions and matchers are
  parameters, given as sequences in the order `Object.values` yields them.
- The lest test runner (`packages/lest`), the React components of the site
  and the site configuration are not part of this model.
- AnnotationBuilding.DocumentBuilder.BuildToLines: returns the entries as
  a value. The JavaScript method hands out the live array, so a caller
  could mutate the builder through it. No caller in the code does.
- Subclassing is not modelled. `ClassBuilder` and `AnnotationBuilder` own a
  `DocumentBuilder` instead of inheriting from it. The inherited
  `add`/`build` are reached through that field.
- A JavaScript `TypeError` has no modelled result: the member's
  precondition excludes that input (see the table above).
- `static` on a function property is carried in the data but never read,
  as in the code.
- GeneratorDraft.MakeMatcherClass: the property list that the loop builds
  is discarded, as in the code. The collection itself is specified by
  `CollectMatcherProperties`.
- GeneratorDraft.DescriptionLines: it assumes description lines without
  line breaks. A line containing a break splits into more physical lines.
- ConvertTypeDraft.DraftAgreesWithRenderer: stated about the corrected
  draft. As written the draft faults on every non-function node
  (`ConvertTypeDraft.AsWrittenDomain`).
- ConvertTypeDraft.EmptyReturnTypeDisagreement: the `:` difference is that
  of the corrected draft; as written the empty-typed return faults, which
  the lemma also states.
- GeneratorDraft.ClassHeaderOccurs: stated for the class generator built on
  the corrected draft. As written, any class with a non-function field
  faults in `convertType`.
- GeneratorDraft.ClassFieldOccurs: stated with field lines from the
  corrected draft. As written, a non-function field faults.
- GeneratorDraft.ClassMethodOccurs: stated for the class generator built on
  the corrected draft. As written, a class with a non-function field faults
  before any method is written.
- GeneratorDraft.TestClassAnnotation: the expected text is the corrected
  draft's. As written the test class's `string` field faults; the lemma
  states that too.
- AnnotationBuilding.DeclarationBlocks: the line-by-line layout needs
  descriptions, names and types without line breaks.
  `AnnotationBuilding.DeclarationLines` states the layout without that
  restriction, as lines of lines.
- GeneratorDraft.CollectMatcherProperties: the matcher list is a parameter.
  `matchers.ts:1` imports it from a module that does not export one
  (`json-docs/index.ts:1-44`), so as written the list is undefined and the
  loop faults.
- Unicode is not modelled: strings are sequences of characters, with no
  normalisation.

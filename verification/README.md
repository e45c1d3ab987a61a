# Gleam type printer and inlay hints, in Dafny

This project models two pieces of the Gleam compiler's editor support and
proves properties about them.

- **The type printer** (`type_/pretty.rs`). It turns a type into Gleam
  source text:
  - it follows unification-variable links;
  - it decides whether a named type is written bare, under an import alias,
    or qualified by its module;
  - it names anonymous and generic type variables `a`, `b`, …, `z`, `aa`,
    `ab`, … in the order it first meets them.

  A printer session is the state record `Printer`. It holds the variable
  names given so far, the naming counter, the table of bare type names
  already printed with their modules, and an optional import context. Every
  printing function takes a session and returns the text together with the
  next session.
- **The inlay-hint generator** (`language_server/inlay_hints.rs`). It walks
  a type-checked module and produces editor hints:
  - `: T` after each parameter that has no annotation;
  - `-> T` after the head of each function that has no return annotation;
  - `T` after the intermediate steps of a pipeline.

  Pipeline hints are collapsed by source line. Only the last step that ends
  on a line is hinted, literal steps never are, and the final value is
  hinted only when it ends on another line than the last step.

  The generator prints types through a different printer
  (`type_::printer`), which is not part of this model. It is a parameter
  here: a `TypePrinter<S>` holds an initial session and a function from a
  session and a type to the text and the next session. Source offsets map
  to lines through a parameter `line: nat -> nat`. A hint's position is the
  byte offset it is anchored at.

Modules:

| file | module | contents |
|---|---|---|
| `optional.dfy` | `Optional` | `Option` |
| `types.dfy` | `Types` | `Type`, `TypeVar`, `FnTypes` |
| `letters.dfy` | `Letters` | bijective base-26 names, their inverse, the digit loop of `next_letter` |
| `pretty.dfy` | `Pretty` | printer state, imports, qualification, naming, `Print` |
| `pretty_properties.dfy` | `PrettyProperties` | naming, transparency, qualification and stability lemmas |
| `pretty_examples.dfy` | `PrettyExamples` | the unit tests of `pretty.rs`, as lemmas |
| `inlay_hints.dfy` | `InlayHints` | hint records, the walk, the pipeline loop |
| `inlay_hints_properties.dfy` | `InlayHintsProperties` | append-only walk, per-function reset, hint order |
| `pipeline_collapse.dfy` | `PipelineCollapse` | closed form of the pipeline collapse |
| `inlay_hints_examples.dfy` | `InlayHintsExamples` | worked pipelines and a worked function |

Notes on behaviour, as the code is written:

- **Unqualified imports drop arguments.** A named type from an unqualified
  import prints as its local name only: the early return at
  `pretty.rs:129-134` skips the argument list. `Print` keeps this.
  `PrettyProperties.HeadDropsArgsOnlyForUnqualifiedImport` shows that this
  is the only case where arguments are dropped.
- **Hint padding.** Every hint made by `default_inlay_hint` has left
  padding `Some(true)`. Only the parameter hint overrides it, to
  `Some(false)`. So return and pipeline hints are padded on the left.
- **Flushing the last step.** When the final value ends on another line,
  the last step's pending hint is pushed as well, not only the final
  value's hint. Consider three steps where steps 1 and 2 share a line and
  the final value is on its own line. Then step 2, step 3 and the final
  value are hinted. `InlayHintsExamples.FinalOnOwnLine` shows this.
- **Idempotence needs two conditions.** Printing a type twice with one
  session gives the same text, provided that (1) no named type in it is
  called like a variable name (it does not start with a lower-case letter),
  and (2) every variable name already in the session, including those given
  through `with_names`, starts with a lower-case letter. Otherwise a
  variable name recorded in the clash table qualifies a type of the same
  name the second time. `PrettyExamples.PrintTwiceDiffersForLetterLikeTypeNames`
  breaks (1): `#(a, a)` first, then `#(m.a, a)`.
  `PrettyExamples.PrintTwiceDiffersForTypeLikeVariableNames` breaks (2): with
  variable 1 named `Int`, `#(Int, Int)` first, then `#(gleam.Int, Int)`.

## Model

| member | source | states |
|---|---|---|
| Types.FnTypes | compiler-core/src/language_server/inlay_hints.rs:122-126 | a function type yields its arguments and return type; a link is followed; a named type, a tuple or an unlinked variable yields nothing |
| Letters.LetterNameValueOfLetterName | compiler-core/src/type_/pretty.rs:209-229 | reading a generated variable name back as a bijective base-26 numeral gives the counter value it was made from |
| Letters.LetterNameOfLetterNameValue | compiler-core/src/type_/pretty.rs:209-229 | every non-empty word of lower-case letters is the name the counter it reads as would get, so every such word is eventually given out |
| Letters.LetterNameInjective | compiler-core/src/type_/pretty.rs:209-229 | different counter values give different variable names |
| Letters.LetterLoop | compiler-core/src/type_/pretty.rs:214-228 | the loop of `next_letter` (push the digit, divide, stop at zero, else subtract one, reverse at the end) yields the bijective base-26 name of the counter, in front of the reversed digits already pushed |
| Letters.LetterNameExamples | compiler-core/src/type_/pretty.rs:253-333 | counter 0 is `a`, 25 is `z`, 26 is `aa`, 51 is `az`, 52 is `ba` and 77 is `bz`, as the letter test expects |
| Pretty.ImportFromAst | compiler-core/src/type_/pretty.rs:33-51 | the module is kept; an alias becomes the renaming exactly when it is a variable name, never when it is a discard; every unqualified type import keeps its name and local alias, in order |
| Pretty.NewPrinter | compiler-core/src/type_/pretty.rs:84-86 | a new session has no names, counter zero, nothing printed and no import context |
| Pretty.WithImportsContext | compiler-core/src/type_/pretty.rs:88-90 | sets the import context to the given module and imports, and leaves the rest of the session alone |
| Pretty.WithNames | compiler-core/src/type_/pretty.rs:92-94 | replaces the variable names, and leaves the counter, the printed types and the context alone |
| Pretty.FindImport | compiler-core/src/type_/pretty.rs:123 | there is no result exactly when no import is of the module; otherwise the result is the first import of that module |
| Pretty.FindUnqualified | compiler-core/src/type_/pretty.rs:126-127 | there is no result exactly when no unqualified import has the name; otherwise the result is the first one that has it |
| PrettyProperties.QualifyTypeNameParts | compiler-core/src/type_/pretty.rs:248-250 | the module name, then one dot, then the type name, and nothing else |
| Pretty.NameClashesIfUnqualified | compiler-core/src/type_/pretty.rs:179-185 | a name never printed does not clash; one printed from the same module does not; one printed from a different module does |
| Pretty.NextLetter | compiler-core/src/type_/pretty.rs:209-229 | gives the bijective base-26 name of the counter, which reads back to the counter, and advances the counter by one and changes nothing else |
| Pretty.GenericTypeVar | compiler-core/src/type_/pretty.rs:194-207 | a known variable keeps its name and the counter; an unknown one gets the counter's name, which is recorded; either way the name is entered as a module-less printed type |
| Pretty.PrintNamedHead | compiler-core/src/type_/pretty.rs:118-150 | with an import context the session is unchanged; without one the arguments are always kept; the names and the counter never change |
| Pretty.Print | compiler-core/src/type_/pretty.rs:113-177 | printing keeps the import context, never lowers the counter, and never forgets or renames a variable it has named |
| Pretty.PrintTypeVar | compiler-core/src/type_/pretty.rs:187-192 | the same session guarantees for a type variable |
| Pretty.PrintArgs | compiler-core/src/type_/pretty.rs:231-245 | the same session guarantees for an argument list; no arguments give no text and an unchanged session |
| PrettyProperties.GenericTypeVarIdempotent | compiler-core/src/type_/pretty.rs:194-207 | asking for the same variable again gives the same name and the same session |
| PrettyProperties.SeededNamesUsedAsIs | compiler-core/src/type_/pretty.rs:92-94 | a name supplied for a variable in advance is used as it is, without advancing the counter |
| PrettyProperties.NewPrinterSessionNames | compiler-core/src/type_/pretty.rs:84-86 | a new session satisfies the naming invariant: names are letter names below the counter and no two variables share one |
| PrettyProperties.GenericTypeVarFreshName | compiler-core/src/type_/pretty.rs:200-205 | under the naming invariant, a newly named variable gets a name no other variable has |
| PrettyProperties.PrintKeepsSessionNames | compiler-core/src/type_/pretty.rs:113-177 | printing any type preserves the naming invariant, so distinct variables always print differently |
| PrettyProperties.PrintTypeVarKeepsSessionNames | compiler-core/src/type_/pretty.rs:187-192 | the same for a type variable |
| PrettyProperties.PrintArgsKeepSessionNames | compiler-core/src/type_/pretty.rs:231-245 | the same for an argument list |
| PrettyProperties.Normalise | compiler-core/src/type_/pretty.rs:187-192 | the normal form of a type, with every link followed and every unbound variable read as generic, contains no link and no unbound variable anywhere (`NormalForm`) |
| PrettyProperties.NormaliseFixesNormalForm | compiler-core/src/type_/pretty.rs:187-192 | a type already in normal form is its own normal form, so normalising twice changes nothing |
| PrettyProperties.PrintIgnoresLinksAndVariableKind | compiler-core/src/type_/pretty.rs:173-192 | printing a type gives the same text and session as printing its normal form, which has no link and no unbound variable anywhere: the text depends only on the link-free form |
| PrettyProperties.PrintArgsIgnoreLinksAndVariableKind | compiler-core/src/type_/pretty.rs:231-245 | the same for argument lists |
| PrettyProperties.LinkAndVariableKind | compiler-core/src/type_/pretty.rs:187-192 | a link prints as its target; an unbound and a generic variable with the same id print the same |
| PrettyProperties.PreludeAndOwnModuleBare | compiler-core/src/type_/pretty.rs:118-121 | with an import context, a prelude type or a type of the current module prints bare, with its arguments, and does not change the session |
| PrettyProperties.UnqualifiedImportPrintsLocalName | compiler-core/src/type_/pretty.rs:123-134 | a type imported unqualified prints as its local alias, or its own name without one, and does not change the session |
| PrettyProperties.ImportedModuleQualified | compiler-core/src/type_/pretty.rs:123-140 | a type of an imported module, not imported unqualified, prints qualified by the module's alias, or by the module's name without one |
| PrettyProperties.UnimportedModuleQualified | compiler-core/src/type_/pretty.rs:137-140 | a type of a module that is not imported prints qualified by the module's full name |
| PrettyProperties.DiscardedAliasQualifiesByModule | compiler-core/src/type_/pretty.rs:37-40 | an import aliased to a discard qualifies its types by the module's name |
| PrettyProperties.NamedArgumentList | compiler-core/src/type_/pretty.rs:153-159 | outside the unqualified-import case, a named type with arguments prints as its head and then the parenthesised argument list, printed from the session the head leaves |
| PrettyProperties.HeadDropsArgsOnlyForUnqualifiedImport | compiler-core/src/type_/pretty.rs:118-151 | a named type's arguments are dropped only when it is imported unqualified |
| PrettyProperties.FirstPrintRecordsModule | compiler-core/src/type_/pretty.rs:143-149 | without a context, a type name never printed before prints bare and is recorded with its module |
| PrettyProperties.SameModuleStaysBare | compiler-core/src/type_/pretty.rs:179-185 | a name already printed from the same module prints bare again |
| PrettyProperties.OtherModuleQualified | compiler-core/src/type_/pretty.rs:179-185 | a name already printed from another module prints qualified |
| PrettyProperties.BareIffNoClash | compiler-core/src/type_/pretty.rs:143-149 | without a context, a type's head is its bare name exactly when the bare name would not clash |
| PrettyProperties.QualifyTypeNameInjective | compiler-core/src/type_/pretty.rs:248-250 | for module names without a dot, a qualified name determines both its module and its type name |
| PrettyProperties.HeadExtends | compiler-core/src/type_/pretty.rs:118-150 | printing a type's head only adds to the session |
| PrettyProperties.PrintExtends | compiler-core/src/type_/pretty.rs:113-177 | printing only adds names and printed types, and keeps every variable's name looking like a variable name |
| PrettyProperties.PrintTypeVarExtends | compiler-core/src/type_/pretty.rs:187-192 | the same for a type variable |
| PrettyProperties.PrintArgsExtend | compiler-core/src/type_/pretty.rs:231-245 | the same for argument lists |
| PrettyProperties.PrintStable | compiler-core/src/type_/pretty.rs:113-177 | once a type has been printed, printing it from any later session gives the same text, provided no type name in it looks like a variable name and every variable name in both sessions does |
| PrettyProperties.PrintTypeVarStable | compiler-core/src/type_/pretty.rs:187-192 | the same for a type variable |
| PrettyProperties.PrintArgsStable | compiler-core/src/type_/pretty.rs:231-245 | the same for argument lists |
| PrettyProperties.PrintTwiceSameText | compiler-core/src/type_/pretty.rs:113-177 | printing a type a second time with the session the first print left gives the same text, provided no type name in it looks like a variable name and every variable name in the session does |
| PrettyExamples.PrettyPrintNamedCases | compiler-core/src/type_/pretty.rs:344-420 | the first and the fourth case of the printing test: a named type of another module prints bare when nothing clashes, and a link to it prints the same |
| PrettyExamples.PrettyPrintAppliedCase | compiler-core/src/type_/pretty.rs:354-378 | `Pair` applied to `Int` and `Bool` prints `Pair(Int, Bool)`, as the printing test expects |
| PrettyExamples.PrettyPrintFunctionCase | compiler-core/src/type_/pretty.rs:379-406 | a function from `Int` and `Bool` to `Bool` prints `fn(Int, Bool) -> Bool`, as the printing test expects |
| PrettyExamples.PrettyPrintVariableCases | compiler-core/src/type_/pretty.rs:421-448 | unbound and generic variables render as `a` and `fn(a) -> b`, as the printing test expects |
| PrettyExamples.FunctionTestCases | compiler-core/src/type_/pretty.rs:452-543 | function types with no arguments and with three arguments render as the function test expects |
| PrettyExamples.QualificationTestCases | compiler-core/src/type_/pretty.rs:552-660 | the import-context tests of qualification: imported, unimported, renamed, same module, prelude |
| PrettyExamples.UnqualifiedImportTestCases | compiler-core/src/type_/pretty.rs:662-713 | the import-context tests of unqualified imports: the type's own name, or its `as` alias |
| PrettyExamples.ClashExample | compiler-core/src/type_/pretty.rs:143-150 | without a context, `Name` from module `a`, then `b`, then `a` prints `Name`, `b.Name`, `Name` |
| PrettyExamples.PrintTwiceDiffersForLetterLikeTypeNames | compiler-core/src/type_/pretty.rs:194-207 | a type called `a` beside variable `a` prints `#(a, a)` and then `#(m.a, a)`: the type-name condition on `PrintTwiceSameText` is needed |
| PrettyExamples.PrintTwiceDiffersForTypeLikeVariableNames | compiler-core/src/type_/pretty.rs:194-207 | with variable 1 named `Int` through `with_names`, the tuple of the prelude `Int` and variable 1 prints `#(Int, Int)` and then `#(gleam.Int, Int)`: the variable-name condition on `PrintTwiceSameText` is needed |
| InlayHints.Steps | compiler-core/src/language_server/inlay_hints.rs:149-150 | the steps are the first value followed by the assignments, so there is at least one |
| InlayHints.DefaultInlayHint | compiler-core/src/language_server/inlay_hints.rs:23-36 | a hint at the given offset with the given label, of kind type, padded on the left and not on the right |
| InlayHints.Unannotated | compiler-core/src/language_server/inlay_hints.rs:45-47 | every parameter without an annotation is in the result, everything in the result is such a parameter, and there are no more of them than parameters |
| InlayHints.UnannotatedIndices | compiler-core/src/language_server/inlay_hints.rs:45-47 | the positions below `n` of the parameters without an annotation: increasing, in range, and all of them |
| InlayHints.PushBindingAnnotation | compiler-core/src/language_server/inlay_hints.rs:39-55 | an annotated binding adds nothing; otherwise one hint `: T` at the span's end, with left padding off, and the printer session advances |
| InlayHints.PushReturnAnnotation | compiler-core/src/language_server/inlay_hints.rs:57-72 | an annotated return adds nothing; otherwise one hint `-> T` at the span's end with the default padding |
| InlayHints.PushArgs | compiler-core/src/language_server/inlay_hints.rs:84-88 | exactly one hint per unannotated parameter is appended, after the hints kept |
| InlayHints.PushSignature | compiler-core/src/language_server/inlay_hints.rs:84-96 | a signature's hints only append to the hints kept |
| InlayHints.VisitExpr | compiler-core/src/language_server/inlay_hints.rs:99-203 | visiting an expression only appends hints |
| InlayHints.VisitExprs | compiler-core/src/language_server/inlay_hints.rs:80-82 | visiting statements in order only appends hints |
| InlayHints.VisitAssignment | compiler-core/src/language_server/inlay_hints.rs:137 | visiting a pipeline step only appends hints |
| InlayHints.VisitAssignments | compiler-core/src/language_server/inlay_hints.rs:138-140 | visiting the pipeline's steps only appends hints |
| InlayHints.VisitFnLiteral | compiler-core/src/language_server/inlay_hints.rs:99-127 | visiting a function literal only appends hints |
| InlayHints.VisitPipeline | compiler-core/src/language_server/inlay_hints.rs:129-145 | a pipeline visits its first value, its steps and its final value in order; with pipeline hints off that is all it does |
| InlayHints.PipelineHints | compiler-core/src/language_server/inlay_hints.rs:143-202 | with pipeline hints off, nothing is added |
| InlayHints.CollapseSteps | compiler-core/src/language_server/inlay_hints.rs:147-182 | the loop only appends, and after a step it leaves pending the line of the last step |
| InlayHints.FlushFinal | compiler-core/src/language_server/inlay_hints.rs:184-202 | with no step seen, or a final value on the last step's line, nothing is added; on another line the pending hint, if any, is pushed and then the final value's type, printed with the current session, at its end with the default padding; the session advances by that print |
| InlayHints.VisitFunction | compiler-core/src/language_server/inlay_hints.rs:76-97 | visiting a named function only appends hints |
| InlayHints.VisitFunctions | compiler-core/src/language_server/inlay_hints.rs:206-221 | visiting the module's functions only appends hints |
| InlayHints.GetInlayHints | compiler-core/src/language_server/inlay_hints.rs:206-221 | a module without functions gets no hints; otherwise its hints begin with those its first function gets from a new session |
| InlayHintsProperties.UnannotatedInOrder | compiler-core/src/language_server/inlay_hints.rs:45-47 | the unannotated parameters are exactly the parameters at the unannotated positions, in increasing order |
| InlayHintsProperties.UnannotatedAppend | compiler-core/src/language_server/inlay_hints.rs:45-47 | the unannotated parameters of two lists joined are those of the first list followed by those of the second |
| InlayHintsProperties.PushArgsHints | compiler-core/src/language_server/inlay_hints.rs:84-88 | the parameter hints appended are, for the k-th unannotated parameter, `: T` at its end with left padding off, `T` printed with the session the earlier parameters' prints left; the session after the last print is handed on |
| InlayHintsProperties.PushBindingAnnotationFrame | compiler-core/src/language_server/inlay_hints.rs:39-55 | the hint added does not depend on the hints before it |
| InlayHintsProperties.PushReturnAnnotationFrame | compiler-core/src/language_server/inlay_hints.rs:57-72 | the same for a return hint |
| InlayHintsProperties.PushArgsFrame | compiler-core/src/language_server/inlay_hints.rs:84-88 | the same for parameter hints |
| InlayHintsProperties.VisitExprFrame | compiler-core/src/language_server/inlay_hints.rs:99-203 | the hints an expression adds, and the session it leaves, do not depend on the hints before it |
| InlayHintsProperties.VisitExprsFrame | compiler-core/src/language_server/inlay_hints.rs:80-82 | the same for a statement list |
| InlayHintsProperties.VisitAssignmentFrame | compiler-core/src/language_server/inlay_hints.rs:137 | the same for a pipeline step |
| InlayHintsProperties.VisitAssignmentsFrame | compiler-core/src/language_server/inlay_hints.rs:138-140 | the same for the pipeline's steps |
| InlayHintsProperties.VisitFnLiteralFrame | compiler-core/src/language_server/inlay_hints.rs:99-127 | the same for a function literal |
| InlayHintsProperties.VisitPipelineFrame | compiler-core/src/language_server/inlay_hints.rs:129-203 | the same for a pipeline |
| InlayHintsProperties.PipelineHintsFrame | compiler-core/src/language_server/inlay_hints.rs:143-202 | the same for the pipeline's own hints |
| InlayHintsProperties.CollapseStepsFrame | compiler-core/src/language_server/inlay_hints.rs:147-182 | the same for the collapse loop |
| InlayHintsProperties.FlushFinalFrame | compiler-core/src/language_server/inlay_hints.rs:184-202 | the same for the final flush |
| InlayHintsProperties.PushSignatureFrame | compiler-core/src/language_server/inlay_hints.rs:116-126 | a signature's hints do not depend on the hints before them |
| InlayHintsProperties.PushSignatureOrder | compiler-core/src/language_server/inlay_hints.rs:84-96 | a signature appends the parameter hints, if enabled, and then, if enabled, known and unannotated, `-> T` at the span's end with the default padding, `T` printed with the session the parameter hints left; nothing else is added and the session ends after the last print |
| InlayHintsProperties.VisitFunctionFrame | compiler-core/src/language_server/inlay_hints.rs:76-97 | a named function adds the hints it would add to an empty list with a new printer session |
| InlayHintsProperties.VisitFunctionIgnoresEarlierState | compiler-core/src/language_server/inlay_hints.rs:77-78 | a function's hints are the same whatever hints and printer session came before it, so variable names do not leak between functions |
| InlayHintsProperties.VisitFunctionOrder | compiler-core/src/language_server/inlay_hints.rs:76-97 | a function's hints are its body's from a new session, then the parameter hints printed with the session the body left, if enabled, then `-> T` at the end of the function's head, printed with the session the parameter hints left, if enabled and unannotated |
| InlayHintsProperties.VisitFunctionAppends | compiler-core/src/language_server/inlay_hints.rs:76-97 | visiting a function appends exactly the hints that function gets on its own |
| InlayHintsProperties.VisitFunctionsConcatenates | compiler-core/src/language_server/inlay_hints.rs:206-221 | visiting the functions appends each function's own hints, in order |
| InlayHintsProperties.GetInlayHintsIsConcatenation | compiler-core/src/language_server/inlay_hints.rs:206-221 | a module's hints are the concatenation of its functions' hints |
| InlayHintsProperties.VisitFnLiteralHints | compiler-core/src/language_server/inlay_hints.rs:99-127 | a capture or a `use` gets only its body's hints; an anonymous `fn` also gets the parameter hints printed with the session its body left, and `-> T` at the end of its head printed with the session after those, the latter only when its type is a function type |
| InlayHintsProperties.AnonymousFnUsesCurrentSession | compiler-core/src/language_server/inlay_hints.rs:122-126 | an anonymous `fn` prints its return type with the session already in use, without a reset |
| PipelineCollapse.HintedSteps | compiler-core/src/language_server/inlay_hints.rs:152-182 | the hinted step indices are increasing and in range, and are exactly the steps that are hinted |
| PipelineCollapse.HintsAt | compiler-core/src/language_server/inlay_hints.rs:166-172 | one hint per chosen step |
| PipelineCollapse.CollapseFromStep | compiler-core/src/language_server/inlay_hints.rs:152-182 | running the loop from its closed-form state after any step reaches the closed-form state after the last step: exactly the hints of the hinted steps in between are appended and the last step is left pending |
| PipelineCollapse.CollapseAll | compiler-core/src/language_server/inlay_hints.rs:147-182 | the whole loop leaves the last step pending, pushes exactly the hints of the hinted steps before it, and prints every step's type once, in order |
| PipelineCollapse.PipelineHintsClosedForm | compiler-core/src/language_server/inlay_hints.rs:143-202 | a non-literal step is hinted exactly when the next step, or the final value after the last step, ends on another line; the final value is hinted exactly when it ends on another line than the last step; the hints come in step order, the final value's last, each printed with the session every earlier step left |
| PipelineCollapse.StepHintedIff | compiler-core/src/language_server/inlay_hints.rs:158-181 | a step is among the hinted steps if and only if it is not a literal and the next element ends on another line |
| PipelineCollapse.LiteralStepNeverHinted | compiler-core/src/language_server/inlay_hints.rs:176 | a step whose value is a simple literal is never among the hinted steps |
| PipelineCollapse.PipelineHintCount | compiler-core/src/language_server/inlay_hints.rs:143-202 | a pipeline adds at most one hint per step and one for its final value |
| InlayHintsExamples.FinalOnLastStepLine | compiler-core/src/language_server/inlay_hints.rs:158-202 | steps on lines 0, 0 and 1 with the final value on line 1 give a single hint, for step 2 |
| InlayHintsExamples.FinalOnOwnLine | compiler-core/src/language_server/inlay_hints.rs:158-202 | the same steps with the final value on line 2 give hints for step 2, step 3 and the final value |
| InlayHintsExamples.LiteralStepsNotHinted | compiler-core/src/language_server/inlay_hints.rs:176-200 | literal steps alone on their lines get no hint; a literal final value on its own line does |
| InlayHintsExamples.PipelinesOff | compiler-core/src/language_server/inlay_hints.rs:143-145 | with pipeline hints off, a pipeline gets none |
| InlayHintsExamples.FunctionHints | compiler-core/src/language_server/inlay_hints.rs:76-97 | `fn f(a, b: Int)` without a return annotation gets `: Int` after `a` and `-> Int` after the head |
| InlayHintsExamples.FunctionHintsThreadSession | compiler-core/src/language_server/inlay_hints.rs:76-97 | with a printer whose session moves on at every print, `fn f(x, y)` gets `: a`, `: b` and then `-> c`: each label is printed with the session the one before it left |

## Left out

- Layout: the printer builds a document and lays it out at width 80
  (`pretty_print`, `pretty.rs:98-108`, and the `break_`, `nest` and
  `group` calls). The model renders the flat layout only, which is the
  layout every type gets when it fits on a line. Line breaking and the
  width engine are not part of this model.
- `From<&TypedModule> for Vec<Import>` (`pretty.rs:53-65`): the import
  context is given as a sequence of imports. Filtering a module's
  definitions needs the module AST, which is not part of this model.
- The counter is a `u64` in the source. The model's counter is unbounded,
  because wrap-around would need 2^64 type variables in one session.
- `type_::printer::Printer`, the printer the hint generator uses, is not
  part of this model. It is a parameter, so every result about hints holds
  for any such printer.
- Positions: `src_offset_to_lsp_position` and `LineNumbers` are not part of
  this model. A hint's position is the byte offset it is anchored at, and
  the line of an offset is a parameter. The other `lsp_types` fields of a
  hint (text edits, tooltip, data) are always empty and are left out.
- The generic `Visit` traversal of the typed AST: expressions are reduced
  to literals, generic nodes with children, function literals and
  pipelines. A statement is modelled as the expression it contains. A
  module is modelled as its sequence of named functions. Other
  definitions yield no hints and are left out.
- `InlayHintsConfig` and the LSP request handling are reduced to three
  flags.
- PrettyExamples.FunctionTestCases: it covers the two flat cases of the
  function test. The three cases whose expected text is wrapped over several
  lines depend on the layout engine, which is left out.

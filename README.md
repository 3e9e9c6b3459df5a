# CodeEditor view resolution, modelled in Dafny

This project models the logic of the `CodeEditor` React component of the
CodeSandbox client (`packages/app/src/app/components/CodeEditor/index.tsx`).
The component makes two decisions:

- **Dependency extraction** (`getDependencies`). It finds the sandbox's first
  root-level `package.json`. It parses that file and keeps every entry of
  `dependencies` plus each `devDependencies` entry whose key starts with
  `@types`. If parsing throws, the result is `null`. With no such manifest it
  falls back to the sandbox's recorded npm dependencies.
- **View resolution** (`render`). It picks one of four views, in this order:
  1. the structured configuration editor;
  2. the image viewer;
  3. the "too big to edit" notice for any other binary file;
  4. a text editor, on CodeMirror or Monaco, with a note about how well the
     file's configuration is supported.

  The component's one piece of state, `showConfigUI`, steers the first
  choice. It starts `true`, and `toggleConfigUI` flips it.

Files:

- `wrappers.dfy`: `Option`, the stand-in for `null`/`undefined`.
- `workspace.dfy`: the sandbox, module and directory records the component
  reads.
- `dependencies.dfy`: module `DependencyExtractor`.
  - `Dependencies` is the specification function.
  - The `forEach` loop is the method `CollectUsedDevDependencies`.
  - `GetDependencies` is the whole extractor. It is proved equal to
    `Dependencies`.
  - The lemmas about `Dependencies` follow these.
- `code_editor.dfy`: module `CodeEditorView`.
  - `Resolve` is the pure decision.
  - The class `CodeEditor` holds `showConfigUI`, with `ToggleConfigUI` and
    `Render`.
  - The lemmas about `Resolve` follow these.

These collaborators are parameters (the `Environment` record and the
`Parser` type):

- `getModulePath`;
- `getDefinition(template).configurationFiles`;
- `getUI`;
- `isImage`;
- `JSON.parse`.

Nothing about them is assumed. The exception is the lemma about empty
manifest text, which requires the parser to reject `""`, as `JSON.parse('')`
does.

JavaScript truthiness is written out:

- a missing `code` is read as `''`;
- an empty `partialSupportDisclaimer` counts as no disclaimer;
- an unset setting or `isLive` prop is `false`.

Points where the code's behaviour is easy to misread:

- The prefix test is `startsWith('@types')`, not `'@types/'`. So
  `@typescript-eslint/parser` is kept too (lemma `TypesPrefixWithoutSlash`).
- When several root manifests exist, the first in module order is used. No
  uniqueness is assumed.
- A manifest that fails to parse gives `null` (modelled as `None`), not an
  empty map.
- After one toggle away from the configuration editor, a binary non-image
  module shows the "too big to edit" notice. It does not show a text editor
  or an image viewer.

## Model

| member | source | states |
|---|---|---|
| `DependencyExtractor.FindRootManifest` | packages/app/src/app/components/CodeEditor/index.tsx:30-32 | the index found holds a module titled `package.json` with no directory, and no earlier module is one; `None` exactly when no module is one |
| `DependencyExtractor.CollectUsedDevDependencies` | packages/app/src/app/components/CodeEditor/index.tsx:40-45 | the map the loop builds holds exactly the `@types`-prefixed development entries, with their values |
| `DependencyExtractor.GetDependencies` | packages/app/src/app/components/CodeEditor/index.tsx:29-58 | the extractor's result is the specification `Dependencies`: manifest merge, `None` on a parse error, fallback without a manifest |
| `DependencyExtractor.ParsedManifestOverlay` | packages/app/src/app/components/CodeEditor/index.tsx:36-47 | for a manifest that parses, the result's keys are the regular ones plus the `@types` development ones; a `@types` development value wins on a shared key; other keys keep the regular value |
| `DependencyExtractor.OtherDevDependenciesDropped` | packages/app/src/app/components/CodeEditor/index.tsx:40-47 | a development key without the prefix is in the result iff it is a regular dependency, and then with the regular value |
| `DependencyExtractor.ParseErrorGivesNone` | packages/app/src/app/components/CodeEditor/index.tsx:35-52 | a manifest whose text does not parse gives `None` (the source's `null`) |
| `DependencyExtractor.EmptyManifestGivesNone` | packages/app/src/app/components/CodeEditor/index.tsx:36-38 | a manifest with no code or empty code gives `None`, since `JSON.parse('')` throws |
| `DependencyExtractor.NoManifestFallsBack` | packages/app/src/app/components/CodeEditor/index.tsx:53-56 | with no root manifest the result is the sandbox's recorded npm dependencies |
| `DependencyExtractor.Dependencies` | packages/app/src/app/components/CodeEditor/index.tsx:29-58 | `None` exactly when a root manifest exists and its text does not parse; its other properties are stated by `ParsedManifestOverlay`, `OtherDevDependenciesDropped`, `ParseErrorGivesNone`, `EmptyManifestGivesNone`, `NoManifestFallsBack` and `LaterModulesIgnored` |
| `DependencyExtractor.FindRootManifestAppend` | packages/app/src/app/components/CodeEditor/index.tsx:30-32 | modules appended after the first root manifest do not change which one is found |
| `DependencyExtractor.LaterModulesIgnored` | packages/app/src/app/components/CodeEditor/index.tsx:30-38 | only the first root manifest is consulted: modules after it, later manifests included, leave the result unchanged |
| `DependencyExtractor.FindRootManifestInsert` | packages/app/src/app/components/CodeEditor/index.tsx:30-32 | inserting a module that is not a root manifest anywhere only shifts the index found, or leaves it absent |
| `DependencyExtractor.NonRootManifestIgnored` | packages/app/src/app/components/CodeEditor/index.tsx:30-32 | a `package.json` in a subdirectory, or any non-manifest module, wherever inserted, leaves the result unchanged |
| `DependencyExtractor.TypesPrefixWithoutSlash` | packages/app/src/app/components/CodeEditor/index.tsx:42 | the prefix test accepts `@typescript-eslint/parser` and `@types/node`, and rejects `jest` and `@type` |
| `DependencyExtractor.LodashManifest` | packages/app/src/app/components/CodeEditor/index.tsx:36-47 | `lodash` as a dependency with `@types/lodash` and `jest` as development dependencies gives exactly `lodash` and `@types/lodash` |
| `CodeEditorView.CodeEditor.constructor` | packages/app/src/app/components/CodeEditor/index.tsx:87-89 | a new editor starts with `showConfigUI` true |
| `CodeEditorView.CodeEditor.ToggleConfigUI` | packages/app/src/app/components/CodeEditor/index.tsx:91-93 | toggling negates `showConfigUI` |
| `CodeEditorView.CodeEditor.Render` | packages/app/src/app/components/CodeEditor/index.tsx:95-193 | the view rendered is `Resolve` of the props, the current state and the extracted dependencies |
| `CodeEditorView.ConfigFor` | packages/app/src/app/components/CodeEditor/index.tsx:100-106 | the descriptor is the template's entry for the module's path, and absent exactly when the template has none for that path |
| `CodeEditorView.SelectEngine` | packages/app/src/app/components/CodeEditor/index.tsx:145-148 | CodeMirror exactly when vim mode or CodeMirror is set and the session is not live; a live session always gets Monaco (see also `EngineChoice`) |
| `CodeEditorView.NoteFor` | packages/app/src/app/components/CodeEditor/index.tsx:162-189 | no note exactly when there is no descriptor; otherwise the note's kind follows `getUI` and the disclaimer (see also `TextEditorNote`) |
| `CodeEditorView.Resolve` | packages/app/src/app/components/CodeEditor/index.tsx:106-189 | the configuration editor exactly when a UI-capable descriptor exists and the state asks for it; never a text editor for a binary module; the full case analysis are stated by `ConfigurationEditorIff`, `BinaryModuleViews`, `TextEditorIff`, `EngineChoice`, `TextEditorNote`, `DependenciesPassedOn` and `ToggleMattersOnlyWithConfigUI` |
| `CodeEditorView.ConfigurationEditorIff` | packages/app/src/app/components/CodeEditor/index.tsx:100-115 | the configuration editor is shown iff a descriptor exists for the module's path, `getUI` accepts its type and `showConfigUI` holds, whatever the binary flag; it carries that descriptor |
| `CodeEditorView.BinaryModuleViews` | packages/app/src/app/components/CodeEditor/index.tsx:117-143 | otherwise a binary module gets the image viewer iff `isImage(title)` holds and the notice, linking to its code, iff it does not |
| `CodeEditorView.TextEditorIff` | packages/app/src/app/components/CodeEditor/index.tsx:107-150 | a text editor is shown iff the module is not binary and the configuration editor is not selected |
| `CodeEditorView.EngineChoice` | packages/app/src/app/components/CodeEditor/index.tsx:145-148 | the engine is CodeMirror iff vim mode or CodeMirror is set and the session is not live; live always gives Monaco |
| `CodeEditorView.TextEditorNote` | packages/app/src/app/components/CodeEditor/index.tsx:162-189 | the note is absent iff there is no descriptor; "switch to UI" iff `getUI` accepts its type; otherwise "partially supported" with the disclaimer iff a non-empty disclaimer exists, else "supported" |
| `CodeEditorView.DependenciesPassedOn` | packages/app/src/app/components/CodeEditor/index.tsx:98-190 | the image viewer and the text editor receive the extracted dependencies unchanged |
| `CodeEditorView.ToggleMattersOnlyWithConfigUI` | packages/app/src/app/components/CodeEditor/index.tsx:107 | flipping `showConfigUI` changes the view iff the module has a structured configuration editor |
| `CodeEditorView.ToggleRoundTrip` | packages/app/src/app/components/CodeEditor/index.tsx:87-115 | for a module with a structured configuration editor, a new editor shows it; one toggle switches to the view `Resolve` gives with the state `false` (a text editor, image viewer or notice); a second toggle restores the same view and the state `true` |

## Left out

- JSX markup, styles, tooltips, icons and the `width`/`height` props are
  presentation only. The props spread into each view are not modelled either;
  each view carries only what the decision gives it.
- The `react-loadable` lazy loading of CodeMirror is not modelled; only the
  logical engine choice is.
- `console.error` on a parse failure is a diagnostic side effect, so it is
  not modelled.
- `getModulePath`, `getDefinition`, `getUI`, `isImage` and `JSON.parse` are
  library and registry code. They are parameters, without internals.
- `Parsed`: only manifests whose `dependencies` and `devDependencies` are
  objects or absent are told apart. Any other JSON value (a top-level `null`,
  say, or `devDependencies: null`, where the source throws and returns
  `null`) is left to the parser to classify.
- `CodeEditorView.ConfigFor`: the descriptor lookup is by own key only. A
  path equal to an inherited property name such as `constructor` is not
  modelled.
- NpmDependencies.ToPlain: Immutable.js's `toJS()` is taken to yield exactly
  the record's name-to-version entries as a plain object; its conversion is
  not modelled.
- A sandbox without `npmDependencies` makes the source throw outside its
  `try`. The model's sandbox always has the record.
- `CodeEditorView.CodeEditor.ToggleConfigUI`: React's `setState` is
  asynchronous and may batch updates. The model flips the field at once.
- `CodeEditorView.CodeEditor.Render`: the `toggleConfigUI` callback handed
  to the configuration editor and the "switch to UI" icon is not modelled as
  a value. Calling it is `ToggleConfigUI`.
- The order in which `Object.keys` visits the development dependencies is
  not modelled. The loop takes keys in any order, and the result does not
  depend on it.
- `ConfirmLink` is browser dialog and DOM event glue, and `SubTitle` is a
  styled-components template with no logic; neither is modelled.

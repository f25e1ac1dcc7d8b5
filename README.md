# Template converter and converter factory of asciidoctor-template.js

A Dafny model of the two pieces of decision logic that asciidoctor-template.js
adds to Asciidoctor (compiled to JavaScript with Opal):

- the **template converter** (`lib/asciidoctor/core_ext/template.rb`), which
  overrides the rendering of a node with a Jade template looked up in an
  ordered list of template directories, and
- the **converter factory** (`lib/asciidoctor/core_ext/factory.rb`), which picks
  the converter for a backend: a registered one, a built-in base converter, or
  a composite of a template converter and the base converter, with a default
  template directory filled in for `revealjs` under Node.js.

Files:

- `wrappers.dfy` (`Wrappers`): `Option` (Ruby's `nil`) and `Result` (a value or the error raised).
- `files.dfy` (`Files`): the filesystem as a value (a set of directories and a
  map from file path to contents); `File.join` is concatenation with `/`.
- `converter_options.dfy` (`ConverterOptions`): the options hash as a map whose
  keys are `:template_dirs` or any other named key.
- `templates.dfy` (`Templates`): the search as functions (`Candidate`, the one
  path tried in a directory entry; `Probe`, what one entry contributes;
  `Resolve`, the first-match search over the list), the lemmas about them, and
  the class `TemplateConverter` whose `ResolveTemplate` runs the search as a
  loop proved equal to `Resolve`.
- `factory.dfy` (`Factory`): `Create` as a pure function that returns the
  converter together with the options as `create` leaves them.

`PathResolver#system_path` is a parameter `systemPath: string -> string`; the
registry lookup, `JAVASCRIPT_PLATFORM` and the filesystem are parameters too.
Template compilation and rendering are a parameter `render`.

Two points about the search:

- The search returns the first template found (`template.rb:40`). The comment
  at `template.rb:26` reads "last matching template wins for template name if
  no engine is given"; the engine here is always `jade` (`template.rb:6`), so
  that no-engine case never arises and the comment is a stale note that does
  not describe this code. The model is first-match.
- Inside one directory entry there is no flat fallback: once `engine/` (or
  `backend/`) exists, only the deeper path is tried, even when the flatter
  file exists (`DeeperDirectoryShadowsFlatFile`, `ScenarioPrecedence`).

The filesystem value never holds a path that is both a directory and a file,
and an option key other than `:template_dirs` can never be named
`template_dirs` (under Opal a symbol is its string), so neither of those
impossible states can be expressed.

## Model

| member | source | states |
|---|---|---|
| `Templates.SearchList` | lib/asciidoctor/core_ext/template.rb:7-11 | a string value of `template_dirs` becomes a one-element list; a list is kept unchanged |
| `Templates.TemplateConverter.constructor` | lib/asciidoctor/core_ext/template.rb:4-12 | the converter keeps the backend, its engine is always `jade`, and it searches the normalised directory list |
| `Templates.Candidate` | lib/asciidoctor/core_ext/template.rb:27-39 | the path tried inside an entry is one of `dir/f`, `dir/engine/f`, `dir/backend/f` or `dir/engine/backend/f`, with `f` = `name.engine`; which one is stated by `CandidateCases` |
| `Templates.Probe` | lib/asciidoctor/core_ext/template.rb:24-40 | an entry that is not a directory yields nothing; otherwise its candidate yields its contents iff it is a file, is unreadable iff it is a directory, and yields nothing otherwise |
| `Templates.Resolve` | lib/asciidoctor/core_ext/template.rb:22-42 | an empty list finds nothing; whatever is found is the contents of an existing file, and an unreadable path is an existing directory; the first-match meaning is stated by `ResolveNotFound`, `ResolveFirstMatch` and `ResolveFoundAt` |
| `Templates.TemplateName` | lib/asciidoctor/core_ext/template.rb:46 | no contract of its own: the explicit name when given, else the node's name; `TemplateConverter.Convert`'s `ensures` states the choice |
| `Templates.CandidateCases` | lib/asciidoctor/core_ext/template.rb:27-39 | inside one entry exactly one path is tried: it goes into `engine/` iff that directory exists, then into `backend/` iff that exists under the current directory |
| `Templates.CandidateNamesTemplateFile` | lib/asciidoctor/core_ext/template.rb:39 | the path tried lies under the entry's directory and ends in `/name.engine` |
| `Templates.DeeperDirectoryShadowsFlatFile` | lib/asciidoctor/core_ext/template.rb:27-40 | when `dir/jade` exists without the template, the entry yields nothing even though `dir/name.jade` exists |
| `Templates.NonDirectorySkipped` | lib/asciidoctor/core_ext/template.rb:24 | an entry whose resolved path is not a directory contributes nothing and the search moves to the next entry |
| `Templates.ResolveNotFound` | lib/asciidoctor/core_ext/template.rb:22-42 | the search finds nothing iff no entry contributes anything; an empty list finds nothing |
| `Templates.ResolveFirstMatch` | lib/asciidoctor/core_ext/template.rb:22-40 | the earliest entry that contributes something decides the result |
| `Templates.ResolveFoundAt` | lib/asciidoctor/core_ext/template.rb:22-40 | whatever is found comes from some entry, and every earlier entry contributed nothing |
| `Templates.ResolveAppend` | lib/asciidoctor/core_ext/template.rb:22-42 | searching `front + back` gives the result from `front` if it finds anything, otherwise the result from `back` |
| `Templates.ScenarioPrecedence` | lib/asciidoctor/core_ext/template.rb:22-42 | with `./custom` first, its paragraph template wins over `./fallback`'s; the nested `jade/` template beats a flat one; an absent `table` template is not found |
| `Templates.TemplateConverter.ResolveTemplate` | lib/asciidoctor/core_ext/template.rb:18-43 | the loop over the template directories returns exactly what the first-match search `Resolve` returns |
| `Templates.TemplateConverter.Handles` | lib/asciidoctor/core_ext/template.rb:14-16 | `handles?` is true iff a template is found and false iff none is; it raises when the path found cannot be read |
| `Templates.TemplateConverter.Convert` | lib/asciidoctor/core_ext/template.rb:45-49 | the template name is the explicit one when given, else the node's name; no template means the error raised with `NotFoundMessage(name)`; a found template is rendered |
| `Templates.NotFoundMessage` | lib/asciidoctor/core_ext/template.rb:48 | the error message ends with the name of the template that was not found |
| `Factory.FromRegistry` | lib/asciidoctor/core_ext/factory.rb:7-13 | a registered class is instantiated with `(backend, opts)`; a registered object is returned as it is |
| `Factory.BaseConverter` | lib/asciidoctor/core_ext/factory.rb:15-36 | `html5`, `docbook5`, `docbook45` and `manpage` get their own converter built with `(backend, opts)`; every other backend gets none |
| `Factory.InjectRevealJsTemplates` | lib/asciidoctor/core_ext/factory.rb:38-42 | the options change iff the backend is `revealjs`, the platform is `node` or `node-electron`, the reveal.js template path exists and `:template_dirs` is absent; then only that key is set, to that path |
| `Factory.Create` | lib/asciidoctor/core_ext/factory.rb:6-54 | a registry hit short-circuits with the options untouched; otherwise the base converter alone when `:template_dirs` is absent, else a composite with the template converter on the override side |
| `Factory.CreateChangesOnlyTemplateDirs` | lib/asciidoctor/core_ext/factory.rb:38-42 | `create` changes no option but `:template_dirs`, and never one the caller set |
| `Factory.CreateYieldsNothing` | lib/asciidoctor/core_ext/factory.rb:15-44 | `create` yields nil iff the backend is unregistered, not built in, and has no template directories |
| `Factory.RevealJsComposite` | lib/asciidoctor/core_ext/factory.rb:38-53 | when the reveal.js default is filled in, the backend is `revealjs`, the composite has no base converter and its template converter searches exactly the reveal.js template path |
| `Factory.CompositeOverrideIsTemplate` | lib/asciidoctor/core_ext/factory.rb:44-53 | a composite's override is a template converter over the final `:template_dirs` value, and its base is the built-in converter for the backend |

## Left out

- Compiling and running the Jade template (`template.rb:51-59`) is a call into JavaScript; it is the parameter `render`, and its compile and render errors are not modelled.
- `PathResolver#system_path`, `File.directory?`, `File.exist?` and `File.read` are replaced by the `systemPath` parameter and a filesystem value; the safe-mode restrictions the code leaves open are not modelled.
- `File.read` failing on a path that exists is modelled only for a directory (`Unreadable`); permission and other I/O errors are not.
- `File.join` collapsing duplicate separators (a directory given with a trailing `/`) is not modelled: the join is plain concatenation.
- Option values other than a string or a list of strings (`nil`, numbers, hashes) cannot be expressed, so the `NoMethodError` they would cause in the search is not modelled.
- `Templates.TemplateConverter.Convert`: Ruby's `||=` also replaces an explicit `false`; the model has only "given" and "not given".
- The `if engine` test at `template.rb:27` is always true, since the engine is the fixed string `jade`; the model has no branch for it.
- The lazy `require` of converter classes is dynamic loading; each converter is a constructor of `Factory.Converter`.
- The real base converters, the composite converter's routing and the registry's `resolve` live in Asciidoctor itself; the model builds the converters only as values.
- A base converter receives the same options hash that the reveal.js step later mutates; the model hands it the options as they were, which is the same thing because the reveal.js step only ever happens when there is no base converter (`Factory.RevealJsComposite`).
- `npm/builder.js`, `src/template-asciidoctor-template.js` and `test/spec.js` are build automation, a module loader wrapper and an end-to-end test; they are not part of this model.

/**
 * The converter factory: given a backend name and the options hash, it picks
 * the converter to use. A converter registered for the backend wins outright;
 * otherwise a built-in base converter is chosen, and when the options name
 * template directories it is wrapped in a composite whose override side is a
 * template converter. For the `revealjs` backend under Node.js the factory
 * fills in a default template directory when the caller gave none.
 */
module Factory {
  import opened Wrappers
  import opened Files
  import opened ConverterOptions
  import Templates

  /** Where the reveal.js templates are installed by npm, relative to the working directory. */
  const RevealJsTemplatesPath: string := "node_modules/asciidoctor-reveal.js/templates"

  /** The backends that have a built-in base converter. */
  const BuiltInBackends: set<string> := {"html5", "docbook5", "docbook45", "manpage"}

  /** What the converter registry holds for a backend: a converter class or a converter object. */
  datatype RegistryEntry = ConverterClass(className: string) | ConverterObject(objectId: string)

  /** The converters the factory can hand back. */
  datatype Converter =
    | Registered(objectId: string)
    | Instance(className: string, backend: string, opts: Options)
    | Html5(backend: string, opts: Options)
    | DocBook5(backend: string, opts: Options)
    | DocBook45(backend: string, opts: Options)
    | ManPage(backend: string, opts: Options)
    | Template(backend: string, dirs: OptionValue, opts: Options)
    | Composite(backend: string, override: Converter, base: Option<Converter>)

  /** What `create` yields: the converter (possibly nil) and the caller's options as it leaves them. */
  datatype Created = Created(converter: Option<Converter>, opts: Options)

  /** The Node.js hosts, the only ones where the reveal.js templates are looked for. */
  predicate IsNodePlatform(platform: string)
  {
    platform == "node" || platform == "node-electron"
  }

  /** The converter a registry entry stands for: a class is instantiated, an object is used as it is. */
  function FromRegistry(entry: RegistryEntry, backend: string, opts: Options): (c: Converter)
    ensures entry.ConverterClass? ==> c == Instance(entry.className, backend, opts)
    ensures entry.ConverterObject? ==> c == Registered(entry.objectId)
  {
    match entry
    case ConverterClass(name) => Instance(name, backend, opts)
    case ConverterObject(id) => Registered(id)
  }

  /** The built-in converter for `backend`, if there is one. */
  function BaseConverter(backend: string, opts: Options): (base: Option<Converter>)
    ensures base.Some? <==> backend in BuiltInBackends
    ensures backend == "html5" ==> base == Some(Html5(backend, opts))
    ensures backend == "docbook5" ==> base == Some(DocBook5(backend, opts))
    ensures backend == "docbook45" ==> base == Some(DocBook45(backend, opts))
    ensures backend == "manpage" ==> base == Some(ManPage(backend, opts))
  {
    match backend
    case "html5" => Some(Html5(backend, opts))
    case "docbook5" => Some(DocBook5(backend, opts))
    case "docbook45" => Some(DocBook45(backend, opts))
    case "manpage" => Some(ManPage(backend, opts))
    case _ => None
  }

  /**
   * The options after the reveal.js adaptation: the default template
   * directory is added only for `revealjs` on a Node.js host, only when it
   * exists, and never over a value the caller set.
   */
  function InjectRevealJsTemplates(backend: string, opts: Options, platform: string, fs: FileSystem): (r: Options)
    ensures TemplateDirs in opts ==> r == opts
    ensures r - {TemplateDirs} == opts - {TemplateDirs}
    ensures r != opts <==>
              backend == "revealjs" && IsNodePlatform(platform) && Exists(fs, RevealJsTemplatesPath)
              && TemplateDirs !in opts
    ensures r != opts ==> TemplateDirs in r && r[TemplateDirs] == Text(RevealJsTemplatesPath)
  {
    if backend == "revealjs" && IsNodePlatform(platform) && Exists(fs, RevealJsTemplatesPath)
       && TemplateDirs !in opts
    then opts[TemplateDirs := Text(RevealJsTemplatesPath)]
    else opts
  }

  /**
   * The factory's `create`. `registry` is the registry lookup, `platform` the
   * JavaScript host and `fs` the filesystem `File.exist?` looks at.
   */
  function Create(backend: string, opts: Options, registry: string -> Option<RegistryEntry>,
                  platform: string, fs: FileSystem): (c: Created)
    // a registry hit short-circuits, leaving the options alone
    ensures registry(backend).Some? ==>
              c == Created(Some(FromRegistry(registry(backend).value, backend, opts)), opts)
    // otherwise only the reveal.js adaptation touches the options
    ensures registry(backend).None? ==> c.opts == InjectRevealJsTemplates(backend, opts, platform, fs)
    // without template directories the base converter comes back alone, possibly nil
    ensures registry(backend).None? && TemplateDirs !in c.opts ==> c.converter == BaseConverter(backend, opts)
    // with them, whatever their value, a template converter overrides the base converter
    ensures registry(backend).None? && TemplateDirs in c.opts ==>
              c.converter == Some(Composite(backend, Template(backend, c.opts[TemplateDirs], c.opts),
                                            BaseConverter(backend, opts)))
  {
    match registry(backend)
    case Some(entry) => Created(Some(FromRegistry(entry, backend, opts)), opts)
    case None =>
      var base := BaseConverter(backend, opts);
      var opts' := InjectRevealJsTemplates(backend, opts, platform, fs);
      if TemplateDirs !in opts' then Created(base, opts')
      else Created(Some(Composite(backend, Template(backend, opts'[TemplateDirs], opts'), base)), opts')
  }

  /** The only option `create` ever changes is `:template_dirs`, and only when the caller left it unset. */
  lemma CreateChangesOnlyTemplateDirs(backend: string, opts: Options, registry: string -> Option<RegistryEntry>,
                                      platform: string, fs: FileSystem)
    ensures var c := Create(backend, opts, registry, platform, fs);
            && c.opts - {TemplateDirs} == opts - {TemplateDirs}
            && (TemplateDirs in opts ==> c.opts == opts)
  {
  }

  /** `create` yields nil exactly for an unregistered, unknown backend without template directories. */
  lemma CreateYieldsNothing(backend: string, opts: Options, registry: string -> Option<RegistryEntry>,
                            platform: string, fs: FileSystem)
    ensures var c := Create(backend, opts, registry, platform, fs);
            c.converter.None? <==>
              registry(backend).None? && backend !in BuiltInBackends && TemplateDirs !in c.opts
  {
  }

  /**
   * The reveal.js adaptation only ever happens for a backend that has no
   * built-in converter, and then the composite falls back to nothing. Its
   * override value normalises to the one reveal.js template directory, which
   * is what a `Templates.TemplateConverter` built from that value searches,
   * by the constructor's `ensures this.templateDirs == SearchList(templateDirs)`.
   */
  lemma RevealJsComposite(backend: string, opts: Options, registry: string -> Option<RegistryEntry>,
                          platform: string, fs: FileSystem)
    requires registry(backend).None?
    requires Create(backend, opts, registry, platform, fs).opts != opts
    ensures var c := Create(backend, opts, registry, platform, fs);
            && backend == "revealjs"
            && c.converter == Some(Composite(backend, Template(backend, Text(RevealJsTemplatesPath), c.opts), None))
            && Templates.SearchList(c.converter.value.override.dirs) == [RevealJsTemplatesPath]
  {
  }

  /** A composite always has a template converter over the final `:template_dirs` value on its override side. */
  lemma CompositeOverrideIsTemplate(backend: string, opts: Options, registry: string -> Option<RegistryEntry>,
                                    platform: string, fs: FileSystem)
    requires registry(backend).None?
    ensures var c := Create(backend, opts, registry, platform, fs);
            c.converter.Some? && c.converter.value.Composite? ==>
              && TemplateDirs in c.opts
              && c.converter.value.override == Template(backend, c.opts[TemplateDirs], c.opts)
              && c.converter.value.base == BaseConverter(backend, opts)
  {
  }
}

/**
 * The template converter: it overrides the rendering of a node with a
 * user-supplied Jade template, looked up in an ordered list of template
 * directories.
 *
 * Inside one directory entry exactly one candidate file is tried: the search
 * descends into the `engine` subdirectory if it exists, then into the
 * `backend` subdirectory of wherever it now is if that exists, and looks for
 * `name.engine` there. The first entry whose candidate exists decides the
 * result; later entries are not looked at.
 */
module Templates {
  import opened Wrappers
  import opened Files
  import opened ConverterOptions

  /** The only template engine supported: Jade (now called Pug). */
  const Engine: string := "jade"

  /** A node of the document tree, as far as this converter looks at it. */
  datatype Node = Node(nodeName: string, attributes: map<string, string>)

  /**
   * What a template lookup finds: the text of the template, nothing, or a
   * candidate path that exists but is a directory, which cannot be read.
   */
  datatype Lookup = Found(text: string) | NotFound | Unreadable(path: string)

  /** The errors `convert` raises: a missing template, with the message raised, or an unreadable candidate. */
  datatype TemplateError = TemplateMissing(message: string) | ReadFailed(path: string)

  /** The message raised when no template handles a node. */
  function NotFoundMessage(name: string): (msg: string)
    ensures |msg| > |name| && msg[|msg| - |name|..] == name
  {
    "Could not find a custom template to handle transform: " + name
  }

  /** The template directories a converter searches, given the option value it was built with. */
  function SearchList(templateDirs: OptionValue): (dirs: seq<string>)
    ensures templateDirs.Text? ==> dirs == [templateDirs.text]
    ensures templateDirs.TextList? ==> dirs == templateDirs.items
  {
    match templateDirs
    case Text(dir) => [dir]
    case TextList(items) => items
  }

  /** The name of the template file looked for. */
  function TemplateFile(name: string, engine: string): string
  {
    name + "." + engine
  }

  /**
   * The one path tried inside the template directory `dir` (already made
   * absolute).
   */
  function Candidate(fs: FileSystem, backend: string, engine: string, name: string, dir: string): (c: string)
    ensures var file := TemplateFile(name, engine);
            || c == Join(dir, file)
            || c == Join(Join(dir, engine), file)
            || c == Join(Join(dir, backend), file)
            || c == Join(Join(Join(dir, engine), backend), file)
  {
    var engineDir := Join(dir, engine);
    var base := if IsDirectory(fs, engineDir) then engineDir else dir;
    var backendDir := Join(base, backend);
    var leaf := if IsDirectory(fs, backendDir) then backendDir else base;
    Join(leaf, TemplateFile(name, engine))
  }

  /** What the template directory entry `entry` contributes to a lookup. */
  function Probe(fs: FileSystem, systemPath: string -> string, backend: string, engine: string,
                 name: string, entry: string): (r: Lookup)
    ensures !IsDirectory(fs, systemPath(entry)) ==> r == NotFound
    ensures IsDirectory(fs, systemPath(entry)) ==>
              var c := Candidate(fs, backend, engine, name, systemPath(entry));
              && (r.Found? <==> c in fs.files)
              && (r.Found? ==> r.text == fs.files[c])
              && (r.Unreadable? <==> c in fs.dirs)
              && (r.Unreadable? ==> r.path == c)
  {
    var dir := systemPath(entry);
    if !IsDirectory(fs, dir) then NotFound
    else
      var template := Candidate(fs, backend, engine, name, dir);
      if !Exists(fs, template) then NotFound
      else if template in fs.files then Found(fs.files[template])
      else Unreadable(template)
  }

  /** The lookup over a whole list of template directories: the first entry that contributes decides. */
  function Resolve(fs: FileSystem, systemPath: string -> string, backend: string, engine: string,
                   name: string, dirs: seq<string>): (r: Lookup)
    ensures dirs == [] ==> r == NotFound
    // whatever is found is the contents of an existing file, and an unreadable path is an existing directory
    ensures r.Found? ==> r.text in fs.files.Values
    ensures r.Unreadable? ==> r.path in fs.dirs
    decreases |dirs|
  {
    if dirs == [] then NotFound
    else
      var probe := Probe(fs, systemPath, backend, engine, name, dirs[0]);
      if probe.NotFound? then Resolve(fs, systemPath, backend, engine, name, dirs[1..]) else probe
  }

  /** The name of the template used for `node`: the explicit one if given, else the node's own name. */
  function TemplateName(node: Node, templateName: Option<string>): string
  {
    if templateName.Some? then templateName.value else node.nodeName
  }

  /**
   * Within one directory exactly one candidate is tried, and which one depends
   * only on which of the two nesting directories exist.
   */
  lemma CandidateCases(fs: FileSystem, backend: string, engine: string, name: string, dir: string)
    ensures IsDirectory(fs, Join(dir, engine)) && IsDirectory(fs, Join(Join(dir, engine), backend)) ==>
              Candidate(fs, backend, engine, name, dir)
                  == Join(Join(Join(dir, engine), backend), TemplateFile(name, engine))
    ensures IsDirectory(fs, Join(dir, engine)) && !IsDirectory(fs, Join(Join(dir, engine), backend)) ==>
              Candidate(fs, backend, engine, name, dir) == Join(Join(dir, engine), TemplateFile(name, engine))
    ensures !IsDirectory(fs, Join(dir, engine)) && IsDirectory(fs, Join(dir, backend)) ==>
              Candidate(fs, backend, engine, name, dir) == Join(Join(dir, backend), TemplateFile(name, engine))
    ensures !IsDirectory(fs, Join(dir, engine)) && !IsDirectory(fs, Join(dir, backend)) ==>
              Candidate(fs, backend, engine, name, dir) == Join(dir, TemplateFile(name, engine))
  {
  }

  /** Every candidate names the file `name.engine` inside the directory it was built from. */
  lemma CandidateNamesTemplateFile(fs: FileSystem, backend: string, engine: string, name: string, dir: string)
    ensures var c := Candidate(fs, backend, engine, name, dir);
            var suffix := "/" + name + "." + engine;
            && |c| >= |dir| + |suffix|
            && c[..|dir|] == dir
            && c[|c| - |suffix|..] == suffix
  {
  }

  /**
   * A deeper existing directory is always preferred: when `dir/engine` exists
   * (and has no `backend` subdirectory) and holds no template, the entry
   * contributes nothing, even though `dir/name.engine` exists.
   */
  lemma DeeperDirectoryShadowsFlatFile(fs: FileSystem, systemPath: string -> string, backend: string,
                                       name: string, entry: string)
    requires IsDirectory(fs, systemPath(entry))
    requires IsDirectory(fs, Join(systemPath(entry), Engine))
    requires !IsDirectory(fs, Join(Join(systemPath(entry), Engine), backend))
    requires !Exists(fs, Join(Join(systemPath(entry), Engine), TemplateFile(name, Engine)))
    ensures Probe(fs, systemPath, backend, Engine, name, entry) == NotFound
  {
  }

  /** An entry that does not resolve to a directory contributes nothing; the search goes on. */
  lemma NonDirectorySkipped(fs: FileSystem, systemPath: string -> string, backend: string, engine: string,
                            name: string, dirs: seq<string>)
    requires |dirs| > 0 && !IsDirectory(fs, systemPath(dirs[0]))
    ensures Probe(fs, systemPath, backend, engine, name, dirs[0]) == NotFound
    ensures Resolve(fs, systemPath, backend, engine, name, dirs)
         == Resolve(fs, systemPath, backend, engine, name, dirs[1..])
  {
  }

  /** Nothing is found exactly when no entry contributes anything (in particular, for an empty list). */
  lemma {:induction false} ResolveNotFound(fs: FileSystem, systemPath: string -> string, backend: string,
                                           engine: string, name: string, dirs: seq<string>)
    ensures Resolve(fs, systemPath, backend, engine, name, dirs) == NotFound
        <==> forall i :: 0 <= i < |dirs| ==> Probe(fs, systemPath, backend, engine, name, dirs[i]) == NotFound
    decreases |dirs|
  {
    if dirs != [] {
      ResolveNotFound(fs, systemPath, backend, engine, name, dirs[1..]);
      assert forall i :: 1 <= i < |dirs| ==> dirs[i] == dirs[1..][i - 1];
    }
  }

  /** First match wins: the earliest entry that contributes something decides the result. */
  lemma {:induction false} ResolveFirstMatch(fs: FileSystem, systemPath: string -> string, backend: string,
                                             engine: string, name: string, dirs: seq<string>, i: nat)
    requires i < |dirs|
    requires Probe(fs, systemPath, backend, engine, name, dirs[i]) != NotFound
    requires forall j :: 0 <= j < i ==> Probe(fs, systemPath, backend, engine, name, dirs[j]) == NotFound
    ensures Resolve(fs, systemPath, backend, engine, name, dirs)
         == Probe(fs, systemPath, backend, engine, name, dirs[i])
    decreases i
  {
    if i > 0 {
      assert Probe(fs, systemPath, backend, engine, name, dirs[0]) == NotFound;
      assert forall j :: 0 <= j < i - 1 ==> dirs[1..][j] == dirs[j + 1];
      ResolveFirstMatch(fs, systemPath, backend, engine, name, dirs[1..], i - 1);
    }
  }

  /** Whatever a lookup finds comes from an entry that contributes it, and every earlier entry contributes nothing. */
  lemma {:induction false} ResolveFoundAt(fs: FileSystem, systemPath: string -> string, backend: string,
                                          engine: string, name: string, dirs: seq<string>)
    requires Resolve(fs, systemPath, backend, engine, name, dirs) != NotFound
    ensures exists i :: 0 <= i < |dirs|
              && Probe(fs, systemPath, backend, engine, name, dirs[i])
                 == Resolve(fs, systemPath, backend, engine, name, dirs)
              && forall j :: 0 <= j < i ==> Probe(fs, systemPath, backend, engine, name, dirs[j]) == NotFound
    decreases |dirs|
  {
    var r := Resolve(fs, systemPath, backend, engine, name, dirs);
    if Probe(fs, systemPath, backend, engine, name, dirs[0]) != NotFound {
      assert Probe(fs, systemPath, backend, engine, name, dirs[0]) == r;
    } else {
      ResolveFoundAt(fs, systemPath, backend, engine, name, dirs[1..]);
      var k :| 0 <= k < |dirs[1..]|
               && Probe(fs, systemPath, backend, engine, name, dirs[1..][k]) == r
               && forall j :: 0 <= j < k ==> Probe(fs, systemPath, backend, engine, name, dirs[1..][j]) == NotFound;
      assert dirs[k + 1] == dirs[1..][k];
      forall j | 0 <= j < k + 1
        ensures Probe(fs, systemPath, backend, engine, name, dirs[j]) == NotFound
      {
        if j > 0 { assert dirs[j] == dirs[1..][j - 1]; }
      }
    }
  }

  /** Directories earlier in the list take precedence over later ones. */
  lemma {:induction false} ResolveAppend(fs: FileSystem, systemPath: string -> string, backend: string,
                                         engine: string, name: string, front: seq<string>, back: seq<string>)
    ensures Resolve(fs, systemPath, backend, engine, name, front + back)
         == if Resolve(fs, systemPath, backend, engine, name, front).NotFound?
            then Resolve(fs, systemPath, backend, engine, name, back)
            else Resolve(fs, systemPath, backend, engine, name, front)
    decreases |front|
  {
    if front == [] {
      assert front + back == back;
    } else {
      assert (front + back)[0] == front[0];
      assert (front + back)[1..] == front[1..] + back;
      ResolveAppend(fs, systemPath, backend, engine, name, front[1..], back);
    }
  }

  /** The filesystem of the scenario below: two template directories, one with a `jade` subdirectory. */
  const ScenarioFiles: FileSystem :=
    Tree({"./custom", "./fallback", "./fallback/jade"},
         map["./custom/paragraph.jade" := "custom",
             "./fallback/paragraph.jade" := "flat",
             "./fallback/jade/paragraph.jade" := "nested"])

  /** Template directory entries taken as they are. */
  function Unchanged(path: string): string
  {
    path
  }

  /**
   * A scenario: with `./custom` before `./fallback`, the paragraph template in
   * `./custom` is used even though `./fallback` has one too, and a flat
   * `paragraph.jade` beside an existing `jade` subdirectory is never used.
   */
  lemma ScenarioPrecedence()
    ensures Resolve(ScenarioFiles, Unchanged, "html5", Engine, "paragraph", ["./custom", "./fallback"])
         == Found("custom")
    ensures Resolve(ScenarioFiles, Unchanged, "html5", Engine, "paragraph", ["./fallback", "./custom"])
         == Found("nested")
    ensures Resolve(ScenarioFiles, Unchanged, "html5", Engine, "table", ["./custom", "./fallback"]) == NotFound
  {
    var fs := ScenarioFiles;
    assert Join("./custom", Engine) == "./custom/jade";
    assert Join("./custom", "html5") == "./custom/html5";
    assert Join("./custom", TemplateFile("paragraph", Engine)) == "./custom/paragraph.jade";
    assert Join("./custom", TemplateFile("table", Engine)) == "./custom/table.jade";
    assert Join("./fallback", Engine) == "./fallback/jade";
    assert Join("./fallback/jade", "html5") == "./fallback/jade/html5";
    assert Join("./fallback/jade", TemplateFile("paragraph", Engine)) == "./fallback/jade/paragraph.jade";
    assert Join("./fallback/jade", TemplateFile("table", Engine)) == "./fallback/jade/table.jade";
    assert Probe(fs, Unchanged, "html5", Engine, "paragraph", "./custom") == Found("custom");
    assert Probe(fs, Unchanged, "html5", Engine, "paragraph", "./fallback") == Found("nested");
    assert Probe(fs, Unchanged, "html5", Engine, "table", "./custom") == NotFound;
    assert Probe(fs, Unchanged, "html5", Engine, "table", "./fallback") == NotFound;
    assert ["./custom", "./fallback"][1..] == ["./fallback"];
    assert ["./fallback", "./custom"][1..] == ["./custom"];
    assert ["./fallback"][1..] == [];
  }

  class TemplateConverter {
    const backend: string
    const engine: string
    /** The template directories, in search order. */
    const templateDirs: seq<string>

    /** A single directory given as a string is searched as a one-element list. */
    constructor (backend: string, templateDirs: OptionValue, opts: Options)
      ensures this.backend == backend
      ensures engine == Engine
      ensures this.templateDirs == SearchList(templateDirs)
    {
      this.backend := backend;
      engine := Engine;
      this.templateDirs := SearchList(templateDirs);
    }

    /**
     * Searches the template directories in order for the template `name` and
     * returns what the first entry with an existing candidate yields.
     */
    method ResolveTemplate(fs: FileSystem, systemPath: string -> string, name: string) returns (r: Lookup)
      ensures r == Resolve(fs, systemPath, backend, engine, name, templateDirs)
    {
      var i := 0;
      while i < |templateDirs|
        invariant 0 <= i <= |templateDirs|
        invariant Resolve(fs, systemPath, backend, engine, name, templateDirs)
               == Resolve(fs, systemPath, backend, engine, name, templateDirs[i..])
      {
        assert templateDirs[i..][1..] == templateDirs[i + 1..];
        var templateDir := systemPath(templateDirs[i]);
        if !IsDirectory(fs, templateDir) {
          i := i + 1;
          continue;
        }
        var engineDir := Join(templateDir, engine);
        if IsDirectory(fs, engineDir) {
          templateDir := engineDir;
        }
        var backendDir := Join(templateDir, backend);
        if IsDirectory(fs, backendDir) {
          templateDir := backendDir;
        }
        var template := Join(templateDir, name + "." + engine);
        if Exists(fs, template) {
          if template in fs.files {
            return Found(fs.files[template]);
          }
          return Unreadable(template);
        }
        i := i + 1;
      }
      return NotFound;
    }

    /** Whether a template for `name` exists; it raises when the candidate found cannot be read. */
    method Handles(fs: FileSystem, systemPath: string -> string, name: string)
        returns (r: Result<bool, TemplateError>)
      ensures var lookup := Resolve(fs, systemPath, backend, engine, name, templateDirs);
              && (r == Success(true) <==> lookup.Found?)
              && (r == Success(false) <==> lookup.NotFound?)
              && (lookup.Unreadable? ==> r == Failure(ReadFailed(lookup.path)))
    {
      var lookup := ResolveTemplate(fs, systemPath, name);
      match lookup
      case Found(_) => r := Success(true);
      case NotFound => r := Success(false);
      case Unreadable(path) => r := Failure(ReadFailed(path));
    }

    /**
     * Renders `node` with the template named `templateName`, or with the one
     * named after the node when no name is given; raises when there is no
     * such template. `render` stands for compiling and running the template.
     */
    method Convert(fs: FileSystem, systemPath: string -> string, render: (string, Node) -> string,
                   node: Node, templateName: Option<string>) returns (r: Result<string, TemplateError>)
      ensures var name := if templateName.Some? then templateName.value else node.nodeName;
              var lookup := Resolve(fs, systemPath, backend, engine, name, templateDirs);
              && (lookup.Found? ==> r == Success(render(lookup.text, node)))
              && (lookup.NotFound? ==> r == Failure(TemplateMissing(NotFoundMessage(name))))
              && (lookup.Unreadable? ==> r == Failure(ReadFailed(lookup.path)))
    {
      var name := TemplateName(node, templateName);
      var lookup := ResolveTemplate(fs, systemPath, name);
      match lookup
      case Found(text) => r := Success(render(text, node));
      case NotFound => r := Failure(TemplateMissing(NotFoundMessage(name)));
      case Unreadable(path) => r := Failure(ReadFailed(path));
    }
  }
}

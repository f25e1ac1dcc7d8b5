/**
 * An abstract view of the filesystem the converters look at: which paths are
 * directories and which are regular files with what contents. Paths are plain
 * strings and are never normalised.
 */
module Files {

  datatype Tree = Tree(dirs: set<string>, files: map<string, string>)

  /** A filesystem: no path is both a directory and a regular file. */
  type FileSystem = t: Tree | t.dirs !! t.files.Keys witness Tree({}, map[])

  /** Joins two path segments with a single separator. */
  function Join(parent: string, child: string): string
  {
    parent + "/" + child
  }

  /** `File.directory?`: the path names a directory. */
  predicate IsDirectory(fs: FileSystem, path: string)
  {
    path in fs.dirs
  }

  /** `File.exist?`: the path names a directory or a regular file. */
  predicate Exists(fs: FileSystem, path: string)
  {
    path in fs.dirs || path in fs.files
  }
}

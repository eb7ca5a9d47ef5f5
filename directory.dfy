/**
 * An abstract snapshot of the directories the organizer reads, the path
 * check `validate_path`, and the directory scan `collect_files`.
 */
module Directory {
  import opened Wrappers
  import opened FileNames

  /** What an entry's metadata says about it. */
  datatype Metadata = Metadata(isFile: bool, isDir: bool)

  /**
   * One item of a directory scan. `name` is None when the entry's name is not
   * valid UTF-8; `meta` is None when the entry or its metadata could not be
   * read.
   */
  datatype Entry = Entry(name: Option<string>, meta: Option<Metadata>)

  /**
   * What a path refers to: nothing, something that is not a directory, or a
   * directory whose scan either fails (`scan == None`) or yields its entries
   * in the order the operating system lists them.
   */
  datatype PathState = Missing | NotDirectory | Directory(scan: Option<seq<Entry>>)

  /** A file inside a directory: `dir` joined with `name`. */
  datatype FilePath = FilePath(dir: string, name: string)

  /** The errors that abort a whole call. */
  datatype Error = PathNotFound(path: string) | NotADirectory(path: string) | MoveFolderFailed

  /**
   * `validate_path`: an existing directory passes; a missing path is
   * reported as not found before anything is said about its kind.
   */
  function ValidatePath(path: string, st: PathState): (r: Result<(), Error>)
    ensures r.Success? <==> st.Directory?
    ensures r == Failure(PathNotFound(path)) <==> st.Missing?
    ensures r == Failure(NotADirectory(path)) <==> st.NotDirectory?
  {
    match st
    case Missing => Failure(PathNotFound(path))
    case NotDirectory => Failure(NotADirectory(path))
    case Directory(_) => Success(())
  }

  /** The entries a scan yields: none when the path cannot be read as a directory. */
  function Entries(st: PathState): seq<Entry> {
    if st.Directory? && st.scan.Some? then st.scan.value else []
  }

  /**
   * An entry `collect_files` keeps: a readable regular file with a UTF-8 name
   * whose dotted, lower-cased `Path::extension` is on the whitelist.
   */
  predicate Selected(e: Entry, whitelist: seq<string>) {
    && e.meta.Some? && e.meta.value.isFile
    && e.name.Some?
    && DottedExtension(e.name.value).Some?
    && IsExtensionMatch(DottedExtension(e.name.value).value, whitelist)
  }

  /** Some selected entry of `es` is named `k`. */
  predicate SelectedName(es: seq<Entry>, whitelist: seq<string>, k: string) {
    exists i :: 0 <= i < |es| && Selected(es[i], whitelist) && es[i].name == Some(k)
  }

  /**
   * The name-to-path map `collect_files` builds from the entries, in scan
   * order; a later entry of the same name replaces an earlier one.
   */
  function Collect(dir: string, es: seq<Entry>, whitelist: seq<string>): (m: map<string, FilePath>)
    ensures forall k :: k in m <==> SelectedName(es, whitelist, k)
    ensures forall k :: k in m ==> m[k] == FilePath(dir, k)
  {
    if es == [] then map[]
    else
      var m := Collect(dir, es[..|es| - 1], whitelist);
      var e := es[|es| - 1];
      SelectedSnoc(es, whitelist);
      if Selected(e, whitelist) then m[e.name.value := FilePath(dir, e.name.value)] else m
  }

  /** A name is selected in `es` when it is selected before the last entry or in the last entry. */
  lemma SelectedSnoc(es: seq<Entry>, whitelist: seq<string>)
    requires es != []
    ensures forall k :: SelectedName(es, whitelist, k) <==>
              SelectedName(es[..|es| - 1], whitelist, k) || (Selected(es[|es| - 1], whitelist) && es[|es| - 1].name == Some(k))
  {
    assert forall i :: 0 <= i < |es| - 1 ==> es[..|es| - 1][i] == es[i];
  }

  /**
   * Every collected name has an extension for both rules, they agree, and
   * the whitelist accepts it; in particular no collected name lacks a dot
   * or has its only dot first.
   */
  lemma CollectedNames(dir: string, es: seq<Entry>, whitelist: seq<string>, k: string)
    requires k in Collect(dir, es, whitelist)
    ensures '.' in k && !(k[0] == '.' && '.' !in k[1..])
    ensures ExtractExtension(k).Some?
    ensures IsExtensionMatch(ExtractExtension(k).value, whitelist)
  {
    var i :| 0 <= i < |es| && Selected(es[i], whitelist) && es[i].name == Some(k);
    ExtensionsAgree(k);
  }

  /**
   * `collect_files`: scans the directory once, keeping the selected entries
   * in a map from name to path.
   */
  method CollectFiles(dir: string, st: PathState, whitelist: seq<string>)
    returns (files: map<string, FilePath>)
    ensures files == Collect(dir, Entries(st), whitelist)
  {
    files := map[];
    if st.Directory? && st.scan.Some? {
      var es := st.scan.value;
      for i := 0 to |es|
        invariant files == Collect(dir, es[..i], whitelist)
      {
        assert es[..i + 1][..i] == es[..i];
        var e := es[i];
        if e.meta.Some? && e.meta.value.isFile && e.name.Some? {
          var name := e.name.value;
          var ext := PathExtension(name);
          if ext.Some? {
            var dotted := ToLower("." + ext.value);
            if IsExtensionMatch(dotted, whitelist) {
              files := files[name := FilePath(dir, name)];
            }
          }
        }
      }
      assert es[..|es|] == es;
    }
  }
}

/**
 * `process_files`: validates the source and backup folders, makes the
 * `move` folder, collects the whitelisted files of both folders, and copies
 * each source file and every backup file with the same base name into
 * `move/<ext>/`, where `<ext>` is the source file's lower-cased extension.
 *
 * The filesystem is a snapshot; whether creating a folder or copying a file
 * succeeds is decided by an oracle. The source folder's map is visited in an
 * unspecified order (a `HashMap`), modelled by an arbitrary choice of the
 * next key, so everything said about the whole call is order-free: the
 * multisets of entries and the set of folders made.
 */
module Organizer {
  import opened Wrappers
  import opened FileNames
  import opened Directory

  /** A per-file failure, recorded instead of aborting the call. */
  datatype Skip =
    | FolderFailed(ext: string)          // the folder `move/<ext>` could not be made
    | CopyFailed(name: string)           // a source file could not be copied
    | BackupCopyFailed(name: string)     // a backup file could not be copied

  /** `OrganizeResult`: what was copied, what was skipped, which folders were made. */
  datatype OrganizeResult = OrganizeResult(moved: seq<MovedEntry>, skipped: seq<Skip>, created: seq<string>)

  /** The outcomes of the filesystem operations, which the model does not perform. */
  datatype Oracle = Oracle(
    makeMove: bool,                        // `create_dir_all` of the `move` folder
    makeFolder: string -> bool,            // `create_dir_all` of `move/<ext>`
    copy: (FilePath, FilePath) -> bool)    // `fs::copy(src, dst).is_ok()`

  /**
   * The main folder: its subfolders other than `move` by name, whether
   * `move` exists, and the names inside `move` that can stand for an
   * extension folder. Files the call copies straight into `move` (through
   * the extension `.`) are not tracked.
   */
  datatype Snapshot = Snapshot(dirs: map<string, PathState>, moveExists: bool, moveEntries: set<string>)

  function Resolve(fs: Snapshot, folder: string): PathState {
    if folder in fs.dirs then fs.dirs[folder] else Missing
  }

  /** The folder of extension `ext`, as `created_folders` records it. */
  function MoveDir(ext: string): string { "move/" + ext }

  /** A string of the form `move/<ext>`: a path inside the `move` folder. */
  predicate InMove(c: string) {
    |c| >= 5 && c[..5] == "move/"
  }

  /** An entry of `moved_files`: the file `name` copied into `move/<ext>`. */
  datatype MovedEntry = MovedEntry(ext: string, name: string) {
    /** The entry as the source writes it. */
    function Text(): string { MoveDir(ext) + "/" + name }
  }

  /** Where a file named `name` is copied for extension `ext`. */
  function Dest(ext: string, name: string): FilePath { FilePath(MoveDir(ext), name) }

  /**
   * Whether `move/<ext>` exists. The extension `.` (from a name ending in a
   * dot) names `move/.`, which is the `move` folder itself.
   */
  predicate FolderPresent(present: set<string>, ext: string) {
    ext == "." || ext in present
  }

  /** Whether files can be copied into `move/<ext>`: it exists or can be made. */
  predicate Ready(present: set<string>, ext: string, o: Oracle) {
    FolderPresent(present, ext) || o.makeFolder(ext)
  }

  /** The keys among `keys` whose base name is that of `s`. */
  function Matching(s: string, keys: set<string>): set<string> {
    set b | b in keys && NameMatches(s, b)
  }

  /** Entries added to `moved_files` for the backups of `s` among `keys`. */
  ghost function BackupMoved(s: string, ext: string, backups: map<string, FilePath>, keys: set<string>, o: Oracle): multiset<MovedEntry>
    decreases keys
  {
    if keys == {} then multiset{}
    else
      var b := Pick(keys);
      (if b in backups && NameMatches(s, b) && o.copy(backups[b], Dest(ext, b)) then multiset{MovedEntry(ext, b)} else multiset{})
      + BackupMoved(s, ext, backups, keys - {b}, o)
  }

  /** Entries added to `skipped_files` for the backups of `s` among `keys`. */
  ghost function BackupSkipped(s: string, ext: string, backups: map<string, FilePath>, keys: set<string>, o: Oracle): multiset<Skip>
    decreases keys
  {
    if keys == {} then multiset{}
    else
      var b := Pick(keys);
      (if b in backups && NameMatches(s, b) && !o.copy(backups[b], Dest(ext, b)) then multiset{BackupCopyFailed(b)} else multiset{})
      + BackupSkipped(s, ext, backups, keys - {b}, o)
  }

  /**
   * Entries added to `moved_files` for source `s` once `move/<ext>` is
   * ready: the source itself if its copy succeeds, and each backup whose
   * copy succeeds. A backup with the source's own name gives a second copy
   * of the same entry.
   */
  ghost function MovedFor(s: string, src: FilePath, backups: map<string, FilePath>, ext: string, o: Oracle): multiset<MovedEntry> {
    (if o.copy(src, Dest(ext, s)) then multiset{MovedEntry(ext, s)} else multiset{})
    + BackupMoved(s, ext, backups, backups.Keys, o)
  }

  /** Entries added to `skipped_files` for source `s` once `move/<ext>` is ready. */
  ghost function SkippedFor(s: string, src: FilePath, backups: map<string, FilePath>, ext: string, o: Oracle): multiset<Skip> {
    (if o.copy(src, Dest(ext, s)) then multiset{} else multiset{CopyFailed(s)})
    + BackupSkipped(s, ext, backups, backups.Keys, o)
  }

  /** The elements past `a` in `b`, together with `a`'s, are `b`'s. */
  lemma MultisetSuffix<T>(a: seq<T>, b: seq<T>)
    requires a <= b
    ensures multiset(b) == multiset(a) + multiset(b[|a|..])
  {
    assert b == a + b[|a|..];
  }

  /** The elements past `a` in `c` are those past `a` in `b` and those past `b` in `c`. */
  lemma MultisetChain<T>(a: seq<T>, b: seq<T>, c: seq<T>)
    requires a <= b <= c
    ensures multiset(c[|a|..]) == multiset(b[|a|..]) + multiset(c[|b|..])
  {
    assert c[|a|..] == b[|a|..] + c[|b|..];
  }

  /** Appending one element to a sequence extending `a` adds it to the elements past `a`. */
  lemma AppendSuffix<T>(a: seq<T>, b: seq<T>, x: T)
    requires a <= b
    ensures a <= b + [x]
    ensures multiset((b + [x])[|a|..]) == multiset(b[|a|..]) + multiset{x}
  {
    assert (b + [x])[|a|..] == b[|a|..] + [x];
  }

  lemma MoveDirInjective(e1: string, e2: string)
    requires MoveDir(e1) == MoveDir(e2)
    ensures e1 == e2
  {
    assert e1 == MoveDir(e1)[5..];
    assert e2 == MoveDir(e2)[5..];
  }

  /** `move/<ext>` is inside `move`, and an entry inside `move` is the folder of what follows `move/`. */
  lemma MoveDirInMove(ext: string, c: string)
    ensures InMove(MoveDir(ext)) && MoveDir(ext)[5..] == ext
    ensures InMove(c) ==> c == MoveDir(c[5..])
  {
    assert MoveDir(ext)[5..] == ext;
    if InMove(c) {
      assert c == c[..5] + c[5..];
    }
  }

  /** Where the parts of a moved entry's text lie. */
  lemma TextLayout(m: MovedEntry)
    ensures |m.Text()| == 6 + |m.ext| + |m.name|
    ensures m.Text()[5..5 + |m.ext|] == m.ext
    ensures m.Text()[5 + |m.ext|] == '/'
    ensures m.Text()[6 + |m.ext|..] == m.name
    ensures forall i :: 5 <= i < 5 + |m.ext| ==> m.Text()[i] == m.ext[i - 5]
  {
    var t := m.Text();
    assert t == "move/" + m.ext + "/" + m.name;
  }

  /**
   * The text `move/<ext>/<name>` determines the entry when the extension
   * holds no `/` (a file name never does), so entries and their texts are
   * in one-to-one correspondence.
   */
  lemma TextInjective(a: MovedEntry, b: MovedEntry)
    requires '/' !in a.ext && '/' !in b.ext
    requires a.Text() == b.Text()
    ensures a == b
  {
    TextLayout(a);
    TextLayout(b);
    var t := a.Text();
    assert forall i :: 5 <= i < 5 + |a.ext| ==> t[i] != '/' by {
      forall i | 5 <= i < 5 + |a.ext| ensures t[i] != '/' {
        assert t[i] == a.ext[i - 5];
      }
    }
    assert forall i :: 5 <= i < 5 + |b.ext| ==> t[i] != '/' by {
      forall i | 5 <= i < 5 + |b.ext| ensures t[i] != '/' {
        assert t[i] == b.ext[i - 5];
      }
    }
    assert |a.ext| == |b.ext|;
  }

  /**
   * The backups among `keys` with the base name of `s` have been copied:
   * `moved` and `skipped` extend `moved0` and `skipped0` by one entry per
   * such backup, exactly the copies and failures the oracle decides.
   */
  ghost predicate BackupsCopied(s: string, ext: string, backups: map<string, FilePath>, o: Oracle, keys: set<string>,
                                moved0: seq<MovedEntry>, skipped0: seq<Skip>, moved: seq<MovedEntry>, skipped: seq<Skip>)
  {
    && moved0 <= moved && skipped0 <= skipped
    && |moved| + |skipped| == |moved0| + |skipped0| + |Matching(s, keys)|
    && multiset(moved[|moved0|..]) == BackupMoved(s, ext, backups, keys, o)
    && multiset(skipped[|skipped0|..]) == BackupSkipped(s, ext, backups, keys, o)
  }

  /**
   * The inner loop of the per-source step: copies every backup whose base
   * name is that of `s` into `move/<ext>/`, recording each copy as moved or
   * skipped.
   */
  method CopyBackups(s: string, ext: string, backups: map<string, FilePath>, o: Oracle,
                     moved0: seq<MovedEntry>, skipped0: seq<Skip>)
    returns (moved: seq<MovedEntry>, skipped: seq<Skip>)
    ensures BackupsCopied(s, ext, backups, o, backups.Keys, moved0, skipped0, moved, skipped)
  {
    moved, skipped := moved0, skipped0;
    var todo := backups.Keys;
    ghost var done: set<string> := {};
    assert BackupMoved(s, ext, backups, done, o) == multiset{};
    while todo != {}
      invariant todo + done == backups.Keys && todo !! done
      invariant BackupsCopied(s, ext, backups, o, done, moved0, skipped0, moved, skipped)
      decreases todo
    {
      var b :| b in todo;
      ghost var m, k := moved, skipped;
      if NameMatches(s, b) {
        if o.copy(backups[b], Dest(ext, b)) {
          moved := moved + [MovedEntry(ext, b)];
        } else {
          skipped := skipped + [BackupCopyFailed(b)];
        }
      }
      BackupStep(s, ext, backups, o, b, done, moved0, skipped0, m, k, moved, skipped);
      todo := todo - {b};
      done := done + {b};
    }
  }

  /** One turn of the loop of `CopyBackups` keeps its invariant. */
  lemma BackupStep(s: string, ext: string, backups: map<string, FilePath>, o: Oracle, b: string, done: set<string>,
                   moved0: seq<MovedEntry>, skipped0: seq<Skip>, m: seq<MovedEntry>, k: seq<Skip>,
                   moved: seq<MovedEntry>, skipped: seq<Skip>)
    requires b in backups && b !in done
    requires BackupsCopied(s, ext, backups, o, done, moved0, skipped0, m, k)
    requires moved == (if NameMatches(s, b) && o.copy(backups[b], Dest(ext, b)) then m + [MovedEntry(ext, b)] else m)
    requires skipped == (if NameMatches(s, b) && !o.copy(backups[b], Dest(ext, b)) then k + [BackupCopyFailed(b)] else k)
    ensures BackupsCopied(s, ext, backups, o, done + {b}, moved0, skipped0, moved, skipped)
  {
    MatchingAdd(s, done, b);
    BackupAdd(s, ext, backups, o, b, done);
    if NameMatches(s, b) && o.copy(backups[b], Dest(ext, b)) {
      AppendSuffix(moved0, m, MovedEntry(ext, b));
    } else if NameMatches(s, b) {
      AppendSuffix(skipped0, k, BackupCopyFailed(b));
    }
  }

  lemma MatchingAdd(s: string, done: set<string>, b: string)
    requires b !in done
    ensures |Matching(s, done + {b})| == |Matching(s, done)| + (if NameMatches(s, b) then 1 else 0)
  {
    assert Matching(s, done + {b}) == Matching(s, done) + (if NameMatches(s, b) then {b} else {});
  }

  /** A backup not visited before adds at most its own entry, once. */
  lemma BackupAdd(s: string, ext: string, backups: map<string, FilePath>, o: Oracle, b: string, done: set<string>)
    requires b in backups && b !in done
    ensures BackupMoved(s, ext, backups, done + {b}, o) == BackupMoved(s, ext, backups, done, o)
              + (if NameMatches(s, b) && o.copy(backups[b], Dest(ext, b)) then multiset{MovedEntry(ext, b)} else multiset{})
    ensures BackupSkipped(s, ext, backups, done + {b}, o) == BackupSkipped(s, ext, backups, done, o)
              + (if NameMatches(s, b) && !o.copy(backups[b], Dest(ext, b)) then multiset{BackupCopyFailed(b)} else multiset{})
  {
    BackupMovedRemove(s, ext, backups, done + {b}, b, o);
    BackupSkippedRemove(s, ext, backups, done + {b}, b, o);
    assert done + {b} - {b} == done;
  }

  /** The backup copies do not depend on which backup is visited first. */
  lemma {:induction false} BackupMovedRemove(s: string, ext: string, backups: map<string, FilePath>, keys: set<string>, b: string, o: Oracle)
    requires b in keys
    ensures BackupMoved(s, ext, backups, keys, o) == BackupMoved(s, ext, backups, keys - {b}, o)
              + (if b in backups && NameMatches(s, b) && o.copy(backups[b], Dest(ext, b)) then multiset{MovedEntry(ext, b)} else multiset{})
    decreases keys
  {
    var t := Pick(keys);
    if t != b {
      BackupMovedRemove(s, ext, backups, keys - {t}, b, o);
      BackupMovedRemove(s, ext, backups, keys - {b}, t, o);
      assert keys - {t} - {b} == keys - {b} - {t};
    }
  }

  /** The backup failures do not depend on which backup is visited first. */
  lemma {:induction false} BackupSkippedRemove(s: string, ext: string, backups: map<string, FilePath>, keys: set<string>, b: string, o: Oracle)
    requires b in keys
    ensures BackupSkipped(s, ext, backups, keys, o) == BackupSkipped(s, ext, backups, keys - {b}, o)
              + (if b in backups && NameMatches(s, b) && !o.copy(backups[b], Dest(ext, b)) then multiset{BackupCopyFailed(b)} else multiset{})
    decreases keys
  {
    var t := Pick(keys);
    if t != b {
      BackupSkippedRemove(s, ext, backups, keys - {t}, b, o);
      BackupSkippedRemove(s, ext, backups, keys - {b}, t, o);
      assert keys - {t} - {b} == keys - {b} - {t};
    }
  }

  /** A backup copy is a backup among `keys` with the base name of `s`, filed under `ext`. */
  lemma {:induction false} BackupMovedMembers(s: string, ext: string, backups: map<string, FilePath>, keys: set<string>, o: Oracle, m: MovedEntry)
    requires m in BackupMoved(s, ext, backups, keys, o)
    ensures m.ext == ext && m.name in keys && m.name in backups && NameMatches(s, m.name)
    decreases keys
  {
    var b := Pick(keys);
    if m != MovedEntry(ext, b) || !(b in backups && NameMatches(s, b) && o.copy(backups[b], Dest(ext, b))) {
      BackupMovedMembers(s, ext, backups, keys - {b}, o, m);
    }
  }

  /**
   * The per-source step, the body of the loop of `process_files`: handles
   * one source file and all the backups with its base name.
   */
  method ProcessSource(s: string, src: FilePath, backups: map<string, FilePath>, present: set<string>, o: Oracle, acc: OrganizeResult)
    returns (next: OrganizeResult, present': set<string>)
    // no extension: nothing happens
    ensures ExtractExtension(s).None? ==> next == acc && present' == present
    // the folder is absent and cannot be made: one skip entry, nothing else
    ensures ExtractExtension(s).Some? && !Ready(present, ExtractExtension(s).value, o) ==>
              && next == acc.(skipped := acc.skipped + [FolderFailed(ExtractExtension(s).value)])
              && present' == present
    // otherwise: the folder is made if absent, then the source and each matching backup are copied
    ensures ExtractExtension(s).Some? && Ready(present, ExtractExtension(s).value, o) ==>
              Handled(s, src, backups, present, o, acc, next, present')
  {
    next, present' := acc, present;
    var ext := ExtractExtension(s);
    if ext.None? {
      return;
    }
    var e := ext.value;
    if !FolderPresent(present, e) {
      if !o.makeFolder(e) {
        next := next.(skipped := next.skipped + [FolderFailed(e)]);
        return;
      }
      present' := present + {e};
      next := next.(created := next.created + [MoveDir(e)]);
    }
    var moved, skipped := next.moved, next.skipped;
    if o.copy(src, Dest(e, s)) {
      moved := moved + [MovedEntry(e, s)];
    } else {
      skipped := skipped + [CopyFailed(s)];
    }
    ghost var moved1, skipped1 := moved, skipped;
    moved, skipped := CopyBackups(s, e, backups, o, moved, skipped);
    SourceThenBackups(s, e, src, backups, o, acc.moved, acc.skipped, moved1, skipped1, moved, skipped);
    next := next.(moved := moved, skipped := skipped);
  }

  /** The source's own copy followed by `CopyBackups` yields `MovedFor` and `SkippedFor`. */
  lemma SourceThenBackups(s: string, ext: string, src: FilePath, backups: map<string, FilePath>, o: Oracle,
                          moved0: seq<MovedEntry>, skipped0: seq<Skip>, moved1: seq<MovedEntry>, skipped1: seq<Skip>,
                          moved: seq<MovedEntry>, skipped: seq<Skip>)
    requires moved1 == if o.copy(src, Dest(ext, s)) then moved0 + [MovedEntry(ext, s)] else moved0
    requires skipped1 == if o.copy(src, Dest(ext, s)) then skipped0 else skipped0 + [CopyFailed(s)]
    requires BackupsCopied(s, ext, backups, o, backups.Keys, moved1, skipped1, moved, skipped)
    ensures moved0 <= moved && skipped0 <= skipped
    ensures |moved| + |skipped| == |moved0| + |skipped0| + 1 + |Matching(s, backups.Keys)|
    ensures multiset(moved[|moved0|..]) == MovedFor(s, src, backups, ext, o)
    ensures multiset(skipped[|skipped0|..]) == SkippedFor(s, src, backups, ext, o)
  {
    MultisetChain(moved0, moved1, moved);
    MultisetChain(skipped0, skipped1, skipped);
    if o.copy(src, Dest(ext, s)) {
      assert moved1[|moved0|..] == [MovedEntry(ext, s)];
      assert skipped1[|skipped0|..] == [];
    } else {
      assert moved1[|moved0|..] == [];
      assert skipped1[|skipped0|..] == [CopyFailed(s)];
    }
  }

  /**
   * What the per-source step does for source `s` whose extension folder is
   * ready: the folder is made (and recorded once) if absent, and the source
   * and each backup with its base name produce one entry each, moved or
   * skipped, with their multiplicities.
   */
  ghost predicate Handled(s: string, src: FilePath, backups: map<string, FilePath>, present: set<string>, o: Oracle,
                          acc: OrganizeResult, next: OrganizeResult, present': set<string>)
    requires ExtractExtension(s).Some?
  {
    var ext := ExtractExtension(s).value;
    && present' == (if FolderPresent(present, ext) then present else present + {ext})
    && next.created == acc.created + (if FolderPresent(present, ext) then [] else [MoveDir(ext)])
    && acc.moved <= next.moved && acc.skipped <= next.skipped
    && |next.moved| + |next.skipped| == |acc.moved| + |acc.skipped| + 1 + |Matching(s, backups.Keys)|
    && multiset(next.moved[|acc.moved|..]) == MovedFor(s, src, backups, ext, o)
    && multiset(next.skipped[|acc.skipped|..]) == SkippedFor(s, src, backups, ext, o)
  }

  // ---------------------------------------------------------------------
  // The whole call, stated without reference to the visiting order. For a
  // source file the folder is ready exactly when it was present at the start
  // or can be made, because a folder made earlier in the call could be made.

  /** What the call adds to `moved_files` for source `s`. */
  ghost function SourceMoved(s: string, sources: map<string, FilePath>, backups: map<string, FilePath>, present0: set<string>, o: Oracle): multiset<MovedEntry> {
    if s !in sources then multiset{}
    else match ExtractExtension(s)
      case None => multiset{}
      case Some(ext) => if Ready(present0, ext, o) then MovedFor(s, sources[s], backups, ext, o) else multiset{}
  }

  /** What the call adds to `skipped_files` for source `s`. */
  ghost function SourceSkipped(s: string, sources: map<string, FilePath>, backups: map<string, FilePath>, present0: set<string>, o: Oracle): multiset<Skip> {
    if s !in sources then multiset{}
    else match ExtractExtension(s)
      case None => multiset{}
      case Some(ext) => if Ready(present0, ext, o) then SkippedFor(s, sources[s], backups, ext, o) else multiset{FolderFailed(ext)}
  }

  ghost function Pick(keys: set<string>): string
    requires keys != {}
  {
    var s :| s in keys; s
  }

  /** The sum of `SourceMoved` over a set of source names. */
  ghost function AllMoved(sources: map<string, FilePath>, keys: set<string>, backups: map<string, FilePath>, present0: set<string>, o: Oracle): multiset<MovedEntry>
    decreases keys
  {
    if keys == {} then multiset{}
    else
      var s := Pick(keys);
      SourceMoved(s, sources, backups, present0, o) + AllMoved(sources, keys - {s}, backups, present0, o)
  }

  /** The sum of `SourceSkipped` over a set of source names. */
  ghost function AllSkipped(sources: map<string, FilePath>, keys: set<string>, backups: map<string, FilePath>, present0: set<string>, o: Oracle): multiset<Skip>
    decreases keys
  {
    if keys == {} then multiset{}
    else
      var s := Pick(keys);
      SourceSkipped(s, sources, backups, present0, o) + AllSkipped(sources, keys - {s}, backups, present0, o)
  }

  /** The moved entries do not depend on which source is taken out first. */
  lemma {:induction false} AllMovedRemove(sources: map<string, FilePath>, keys: set<string>, s: string,
                                          backups: map<string, FilePath>, present0: set<string>, o: Oracle)
    requires s in keys
    ensures AllMoved(sources, keys, backups, present0, o)
         == SourceMoved(s, sources, backups, present0, o) + AllMoved(sources, keys - {s}, backups, present0, o)
    decreases keys
  {
    var t := Pick(keys);
    if t != s {
      AllMovedRemove(sources, keys - {t}, s, backups, present0, o);
      AllMovedRemove(sources, keys - {s}, t, backups, present0, o);
      assert keys - {t} - {s} == keys - {s} - {t};
    }
  }

  /** The skipped entries do not depend on which source is taken out first. */
  lemma {:induction false} AllSkippedRemove(sources: map<string, FilePath>, keys: set<string>, s: string,
                                            backups: map<string, FilePath>, present0: set<string>, o: Oracle)
    requires s in keys
    ensures AllSkipped(sources, keys, backups, present0, o)
         == SourceSkipped(s, sources, backups, present0, o) + AllSkipped(sources, keys - {s}, backups, present0, o)
    decreases keys
  {
    var t := Pick(keys);
    if t != s {
      AllSkippedRemove(sources, keys - {t}, s, backups, present0, o);
      AllSkippedRemove(sources, keys - {s}, t, backups, present0, o);
      assert keys - {t} - {s} == keys - {s} - {t};
    }
  }

  /** Every moved entry comes from some source among `keys`. */
  lemma {:induction false} AllMovedMembers(sources: map<string, FilePath>, keys: set<string>, backups: map<string, FilePath>,
                                           present0: set<string>, o: Oracle, m: MovedEntry)
    requires m in AllMoved(sources, keys, backups, present0, o)
    ensures exists s :: s in keys && m in SourceMoved(s, sources, backups, present0, o)
    decreases keys
  {
    var s := Pick(keys);
    if m !in SourceMoved(s, sources, backups, present0, o) {
      AllMovedMembers(sources, keys - {s}, backups, present0, o, m);
    }
  }

  /** The folder handling source `s` makes: its extension's, when absent at the start and makeable. */
  function NewFolder(s: string, present0: set<string>, o: Oracle): set<string> {
    match ExtractExtension(s)
    case None => {}
    case Some(ext) => if !FolderPresent(present0, ext) && o.makeFolder(ext) then {ext} else {}
  }

  /** The extension folders the call makes over a set of source names. */
  ghost function NewFolders(keys: set<string>, present0: set<string>, o: Oracle): set<string>
    decreases keys
  {
    if keys == {} then {}
    else
      var s := Pick(keys);
      NewFolder(s, present0, o) + NewFolders(keys - {s}, present0, o)
  }

  /** The union does not depend on which element is taken out first. */
  lemma {:induction false} NewFoldersRemove(keys: set<string>, s: string, present0: set<string>, o: Oracle)
    requires s in keys
    ensures NewFolders(keys, present0, o) == NewFolder(s, present0, o) + NewFolders(keys - {s}, present0, o)
    decreases keys
  {
    var t := Pick(keys);
    if t != s {
      NewFoldersRemove(keys - {t}, s, present0, o);
      NewFoldersRemove(keys - {s}, t, present0, o);
      assert keys - {t} - {s} == keys - {s} - {t};
    }
  }

  /**
   * The made folders are exactly the extensions of the source files whose
   * folder was absent at the start and could be made.
   */
  lemma {:induction false} NewFoldersMembers(keys: set<string>, present0: set<string>, o: Oracle)
    ensures NewFolders(keys, present0, o) ==
              set s | s in keys && ExtractExtension(s).Some?
                        && !FolderPresent(present0, ExtractExtension(s).value)
                        && o.makeFolder(ExtractExtension(s).value)
                :: ExtractExtension(s).value
    decreases keys
  {
    if keys != {} {
      var s := Pick(keys);
      NewFoldersMembers(keys - {s}, present0, o);
    }
  }

  /** Every made folder was absent at the start and makeable. */
  lemma NewFoldersMakeable(keys: set<string>, present0: set<string>, o: Oracle, e: string)
    requires e in NewFolders(keys, present0, o)
    ensures !FolderPresent(present0, e) && o.makeFolder(e)
  {
    NewFoldersMembers(keys, present0, o);
  }

  /** A source file with an extension records at least one entry, moved or skipped. */
  lemma SourceRecorded(s: string, sources: map<string, FilePath>, backups: map<string, FilePath>, present0: set<string>, o: Oracle)
    requires s in sources && ExtractExtension(s).Some?
    ensures |SourceMoved(s, sources, backups, present0, o)| + |SourceSkipped(s, sources, backups, present0, o)| >= 1
  {
    var ext := ExtractExtension(s).value;
    if Ready(present0, ext, o) {
      if o.copy(sources[s], Dest(ext, s)) {
        assert MovedEntry(ext, s) in SourceMoved(s, sources, backups, present0, o);
      } else {
        assert CopyFailed(s) in SourceSkipped(s, sources, backups, present0, o);
      }
    } else {
      assert FolderFailed(ext) in SourceSkipped(s, sources, backups, present0, o);
    }
  }

  /** Every collected source file records at least one entry. */
  lemma {:induction false} EveryFileRecorded(dir: string, es: seq<Entry>, whitelist: seq<string>, keys: set<string>,
                                             backups: map<string, FilePath>, present0: set<string>, o: Oracle)
    requires keys <= Collect(dir, es, whitelist).Keys
    ensures |AllMoved(Collect(dir, es, whitelist), keys, backups, present0, o)|
          + |AllSkipped(Collect(dir, es, whitelist), keys, backups, present0, o)| >= |keys|
    decreases keys
  {
    if keys != {} {
      var sources := Collect(dir, es, whitelist);
      var s := Pick(keys);
      CollectedNames(dir, es, whitelist, s);
      SourceRecorded(s, sources, backups, present0, o);
      EveryFileRecorded(dir, es, whitelist, keys - {s}, backups, present0, o);
    }
  }

  /**
   * With the folders the first run left behind, a second run makes no
   * folder: everything it could make already exists.
   */
  lemma SecondRunMakesNoFolder(keys: set<string>, present0: set<string>, o: Oracle)
    ensures NewFolders(keys, present0 + NewFolders(keys, present0, o), o) == {}
  {
    var made := NewFolders(keys, present0, o);
    NewFoldersMembers(keys, present0, o);
    NewFoldersMembers(keys, present0 + made, o);
    forall s | s in keys && ExtractExtension(s).Some?
      ensures FolderPresent(present0 + made, ExtractExtension(s).value) || !o.makeFolder(ExtractExtension(s).value)
    {
      var ext := ExtractExtension(s).value;
      if !FolderPresent(present0, ext) && o.makeFolder(ext) {
        assert ext in made;
      }
    }
  }

  /**
   * Every moved entry is `move/<ext>/<name>`, where `<ext>` is the
   * extension of a source file and `<name>` is that file or a backup file
   * with the same base name.
   */
  lemma MovedEntryShape(sources: map<string, FilePath>, keys: set<string>, backups: map<string, FilePath>, present0: set<string>, o: Oracle, m: MovedEntry)
    requires m in AllMoved(sources, keys, backups, present0, o)
    ensures exists s :: && s in keys && ExtractExtension(s) == Some(m.ext)
                        && (m.name == s || (m.name in backups && NameMatches(s, m.name)))
  {
    AllMovedMembers(sources, keys, backups, present0, o, m);
    var s :| s in keys && m in SourceMoved(s, sources, backups, present0, o);
    var ext := ExtractExtension(s).value;
    if m != MovedEntry(ext, s) {
      BackupMovedMembers(s, ext, backups, backups.Keys, o, m);
    }
  }

  /**
   * The state after handling the source files in `done`, stated without
   * reference to the order: the folders made are exactly the absent,
   * makeable extension folders of those files; `created` records each of
   * them once as `move/<ext>` and holds nothing else; and `moved` and
   * `skipped` hold exactly what those files contribute, with multiplicity.
   */
  ghost predicate Partial(sources: map<string, FilePath>, done: set<string>, backups: map<string, FilePath>,
                          present0: set<string>, o: Oracle, result: OrganizeResult, present: set<string>)
  {
    var made := NewFolders(done, present0, o);
    && present == present0 + made
    && (forall ext :: MoveDir(ext) in result.created <==> ext in made)
    && (forall c :: c in result.created ==> InMove(c))
    && (forall i, j :: 0 <= i < j < |result.created| ==> result.created[i] != result.created[j])
    && multiset(result.moved) == AllMoved(sources, done, backups, present0, o)
    && multiset(result.skipped) == AllSkipped(sources, done, backups, present0, o)
  }

  /** The outcome of handling every source file once. */
  ghost predicate Organized(sources: map<string, FilePath>, backups: map<string, FilePath>, present0: set<string>, o: Oracle,
                            result: OrganizeResult, present: set<string>)
  {
    Partial(sources, sources.Keys, backups, present0, o, result, present)
  }

  /** Nothing handled yet: no folder made, empty vectors. */
  lemma PartialStart(sources: map<string, FilePath>, backups: map<string, FilePath>, present0: set<string>, o: Oracle)
    ensures Partial(sources, {}, backups, present0, o, OrganizeResult([], [], []), present0)
  {
    assert NewFolders({}, present0, o) == {};
  }

  /** One turn of the loop of `process_files`: handling one more source file keeps `Partial`. */
  method OrganizeOne(s: string, sources: map<string, FilePath>, backups: map<string, FilePath>, present0: set<string>,
                     o: Oracle, acc: OrganizeResult, present: set<string>, ghost done: set<string>)
    returns (next: OrganizeResult, present': set<string>)
    requires s in sources && s !in done
    requires Partial(sources, done, backups, present0, o, acc, present)
    ensures Partial(sources, done + {s}, backups, present0, o, next, present')
  {
    next, present' := ProcessSource(s, sources[s], backups, present, o, acc);
    StepPreserves(s, sources, backups, present0, present, present', o, acc, next, done);
  }

  /**
   * The loop of `process_files`: visits the source files in an unspecified
   * order, each exactly once, starting from empty result vectors.
   */
  method OrganizeAll(sources: map<string, FilePath>, backups: map<string, FilePath>, present0: set<string>, o: Oracle)
    returns (result: OrganizeResult, present: set<string>)
    ensures Organized(sources, backups, present0, o, result, present)
  {
    result := OrganizeResult([], [], []);
    present := present0;
    var todo := sources.Keys;
    ghost var done: set<string> := {};
    PartialStart(sources, backups, present0, o);
    while todo != {}
      invariant todo + done == sources.Keys && todo !! done
      invariant Partial(sources, done, backups, present0, o, result, present)
      decreases todo
    {
      var s :| s in todo;
      result, present := OrganizeOne(s, sources, backups, present0, o, result, present, done);
      todo := todo - {s};
      done := done + {s};
    }
    assert done == sources.Keys;
  }

  /**
   * `process_files`. Both folders are checked before anything is made; a
   * failed check or a failure to make `move` aborts the call and leaves the
   * filesystem as it was. Otherwise the call succeeds: `move` exists, the
   * whitelisted files of both folders are collected, and every collected
   * source file is handled once.
   */
  method ProcessFiles(fs: Snapshot, source: string, backup: string, sourceExts: seq<string>, backupExts: seq<string>, o: Oracle)
    returns (r: Result<OrganizeResult, Error>, after: Snapshot)
    ensures ValidatePath(source, Resolve(fs, source)).Failure? ==>
              r == Failure(ValidatePath(source, Resolve(fs, source)).error) && after == fs
    ensures Resolve(fs, source).Directory? && ValidatePath(backup, Resolve(fs, backup)).Failure? ==>
              r == Failure(ValidatePath(backup, Resolve(fs, backup)).error) && after == fs
    ensures Resolve(fs, source).Directory? && Resolve(fs, backup).Directory? && !o.makeMove ==>
              r == Failure(MoveFolderFailed) && after == fs
    ensures Resolve(fs, source).Directory? && Resolve(fs, backup).Directory? && o.makeMove ==>
              && r.Success?
              && after.dirs == fs.dirs && after.moveExists
              && Organized(Collect(source, Entries(Resolve(fs, source)), sourceExts),
                           Collect(backup, Entries(Resolve(fs, backup)), backupExts),
                           fs.moveEntries, o, r.value, after.moveEntries)
  {
    after := fs;
    var sourceState, backupState := Resolve(fs, source), Resolve(fs, backup);
    var check := ValidatePath(source, sourceState);
    if check.Failure? {
      return Failure(check.error), after;
    }
    check := ValidatePath(backup, backupState);
    if check.Failure? {
      return Failure(check.error), after;
    }
    if !o.makeMove {
      return Failure(MoveFolderFailed), after;
    }
    var sources := CollectFiles(source, sourceState, sourceExts);
    var backups := CollectFiles(backup, backupState, backupExts);
    var result, present := OrganizeAll(sources, backups, fs.moveEntries, o);
    after := Snapshot(fs.dirs, true, present);
    r := Success(result);
  }

  /**
   * Organizing the same files a second time, starting from the folders the
   * first pass left and with the same outcomes of the filesystem
   * operations, creates no folder: `created` is empty and the folders in
   * `move` stay as they were.
   */
  lemma SecondOrganizeCreatesNothing(sources: map<string, FilePath>, backups: map<string, FilePath>, present0: set<string>, o: Oracle,
                                first: OrganizeResult, present1: set<string>, second: OrganizeResult, present2: set<string>)
    requires Organized(sources, backups, present0, o, first, present1)
    requires Organized(sources, backups, present1, o, second, present2)
    ensures second.created == []
    ensures present2 == present1
    ensures multiset(second.moved) == multiset(first.moved)
    ensures multiset(second.skipped) == multiset(first.skipped)
  {
    SecondRunMakesNoFolder(sources.Keys, present0, o);
    var made1 := NewFolders(sources.Keys, present0, o);
    forall e | e in made1
      ensures o.makeFolder(e)
    {
      NewFoldersMakeable(sources.Keys, present0, o, e);
    }
    SameFromMadeFolders(sources, sources.Keys, backups, present0, made1, o);
    var made2 := NewFolders(sources.Keys, present1, o);
    forall c | c in second.created
      ensures InMove(c) && c[5..] in made2
    {
      MoveDirInMove(c[5..], c);
    }
    CreatedBound(second.created, made2);
  }

  /**
   * A source file contributes the same entries whether or not folders it
   * could have made already exist: only whether its folder is ready
   * matters.
   */
  lemma SourceSameFromMade(s: string, sources: map<string, FilePath>, backups: map<string, FilePath>,
                           present0: set<string>, made: set<string>, o: Oracle)
    requires forall e :: e in made ==> o.makeFolder(e)
    ensures SourceMoved(s, sources, backups, present0 + made, o) == SourceMoved(s, sources, backups, present0, o)
    ensures SourceSkipped(s, sources, backups, present0 + made, o) == SourceSkipped(s, sources, backups, present0, o)
  {
    if s in sources && ExtractExtension(s).Some? {
      var ext := ExtractExtension(s).value;
      assert Ready(present0 + made, ext, o) == Ready(present0, ext, o);
    }
  }

  /**
   * The whole call records the same entries whether or not folders it
   * could make already exist, so a second pass repeats the first one's
   * copies and failures.
   */
  lemma {:induction false} SameFromMadeFolders(sources: map<string, FilePath>, keys: set<string>, backups: map<string, FilePath>,
                                               present0: set<string>, made: set<string>, o: Oracle)
    requires forall e :: e in made ==> o.makeFolder(e)
    ensures AllMoved(sources, keys, backups, present0 + made, o) == AllMoved(sources, keys, backups, present0, o)
    ensures AllSkipped(sources, keys, backups, present0 + made, o) == AllSkipped(sources, keys, backups, present0, o)
    decreases keys
  {
    if keys != {} {
      var s := Pick(keys);
      SourceSameFromMade(s, sources, backups, present0, made, o);
      SameFromMadeFolders(sources, keys - {s}, backups, present0, made, o);
    }
  }

  /**
   * Calling `process_files` a second time with the same arguments, on the
   * filesystem the first successful call left and with the same outcomes
   * of the filesystem operations: if it succeeds, `created_folders` is
   * empty, `moved_files` and `skipped_files` hold the same entries as the
   * first time, and the filesystem is as the first call left it.
   */
  lemma SecondRunCreatesNothing(fs: Snapshot, source: string, backup: string, sourceExts: seq<string>, backupExts: seq<string>,
                                o: Oracle, r1: Result<OrganizeResult, Error>, after1: Snapshot,
                                r2: Result<OrganizeResult, Error>, after2: Snapshot)
    // the success postcondition of `ProcessFiles` for the first call, from `fs` to `after1`
    requires r1.Success? && after1.dirs == fs.dirs && after1.moveExists
    requires Organized(Collect(source, Entries(Resolve(fs, source)), sourceExts),
                       Collect(backup, Entries(Resolve(fs, backup)), backupExts),
                       fs.moveEntries, o, r1.value, after1.moveEntries)
    // and for the second call, from `after1` to `after2`
    requires r2.Success? && after2.dirs == after1.dirs && after2.moveExists
    requires Organized(Collect(source, Entries(Resolve(after1, source)), sourceExts),
                       Collect(backup, Entries(Resolve(after1, backup)), backupExts),
                       after1.moveEntries, o, r2.value, after2.moveEntries)
    ensures r2.value.created == []
    ensures multiset(r2.value.moved) == multiset(r1.value.moved)
    ensures multiset(r2.value.skipped) == multiset(r1.value.skipped)
    ensures after2 == after1
  {
    assert Resolve(after1, source) == Resolve(fs, source) && Resolve(after1, backup) == Resolve(fs, backup);
    SecondOrganizeCreatesNothing(Collect(source, Entries(Resolve(fs, source)), sourceExts),
                                 Collect(backup, Entries(Resolve(fs, backup)), backupExts),
                                 fs.moveEntries, o, r1.value, after1.moveEntries, r2.value, after2.moveEntries);
  }

  /**
   * Distinct paths inside `move` that each name a folder in `made` are at
   * most as many as `made`: every folder is recorded at most once.
   */
  lemma {:induction false} CreatedBound(created: seq<string>, made: set<string>)
    requires forall c :: c in created ==> InMove(c) && c[5..] in made
    requires forall i, j :: 0 <= i < j < |created| ==> created[i] != created[j]
    ensures |created| <= |made|
    decreases |created|
  {
    if created != [] {
      var last := created[|created| - 1];
      var rest := created[..|created| - 1];
      assert last in created;
      forall c | c in rest
        ensures InMove(c) && c[5..] in made - {last[5..]}
      {
        var i :| 0 <= i < |rest| && rest[i] == c;
        assert created[i] == c && c in created;
        MoveDirInMove(c[5..], c);
        MoveDirInMove(last[5..], last);
      }
      CreatedBound(rest, made - {last[5..]});
    }
  }

  /** `StepPreserves`'s multiset bookkeeping: what a step adds is that source's contribution. */
  lemma ResultsStep(s: string, sources: map<string, FilePath>, backups: map<string, FilePath>,
                    present0: set<string>, o: Oracle, acc: OrganizeResult, next: OrganizeResult, done: set<string>)
    requires s !in done
    requires multiset(acc.moved) == AllMoved(sources, done, backups, present0, o)
    requires multiset(acc.skipped) == AllSkipped(sources, done, backups, present0, o)
    requires acc.moved <= next.moved && acc.skipped <= next.skipped
    requires multiset(next.moved[|acc.moved|..]) == SourceMoved(s, sources, backups, present0, o)
    requires multiset(next.skipped[|acc.skipped|..]) == SourceSkipped(s, sources, backups, present0, o)
    ensures multiset(next.moved) == AllMoved(sources, done + {s}, backups, present0, o)
    ensures multiset(next.skipped) == AllSkipped(sources, done + {s}, backups, present0, o)
  {
    AllMovedRemove(sources, done + {s}, s, backups, present0, o);
    AllSkippedRemove(sources, done + {s}, s, backups, present0, o);
    assert done + {s} - {s} == done;
    MultisetSuffix(acc.moved, next.moved);
    MultisetSuffix(acc.skipped, next.skipped);
  }

  lemma NewFoldersAdd(done: set<string>, s: string, present0: set<string>, o: Oracle)
    requires s !in done
    ensures NewFolders(done + {s}, present0, o) ==
              NewFolders(done, present0, o)
              + (if ExtractExtension(s).Some? && !FolderPresent(present0, ExtractExtension(s).value)
                    && o.makeFolder(ExtractExtension(s).value)
                 then {ExtractExtension(s).value} else {})
  {
    NewFoldersRemove(done + {s}, s, present0, o);
    assert done + {s} - {s} == done;
  }

  /** Appending the folder of a new extension keeps `created` in step with the made folders. */
  lemma CreatedAdd(created: seq<string>, nf: set<string>, ext: string)
    requires ext !in nf
    requires forall e :: MoveDir(e) in created <==> e in nf
    requires forall c :: c in created ==> InMove(c)
    requires forall i, j :: 0 <= i < j < |created| ==> created[i] != created[j]
    ensures forall e :: MoveDir(e) in created + [MoveDir(ext)] <==> e in nf + {ext}
    ensures forall c :: c in created + [MoveDir(ext)] ==> InMove(c)
    ensures forall i, j :: 0 <= i < j < |created + [MoveDir(ext)]| ==> (created + [MoveDir(ext)])[i] != (created + [MoveDir(ext)])[j]
  {
    MoveDirInMove(ext, MoveDir(ext));
    forall e | MoveDir(e) in created + [MoveDir(ext)]
      ensures e in nf + {ext}
    {
      if MoveDir(e) !in created { MoveDirInjective(e, ext); }
    }
  }

  /**
   * One turn of the loop of `OrganizeAll` keeps its invariant: `present`
   * and `created` track the folders made so far, and `moved` and `skipped`
   * track the source files handled so far.
   */
  lemma StepPreserves(s: string, sources: map<string, FilePath>, backups: map<string, FilePath>,
                      present0: set<string>, present: set<string>, present': set<string>, o: Oracle,
                      acc: OrganizeResult, next: OrganizeResult, done: set<string>)
    requires s in sources && s !in done
    requires Partial(sources, done, backups, present0, o, acc, present)
    // the contract of ProcessSource
    requires ExtractExtension(s).None? ==> next == acc && present' == present
    requires ExtractExtension(s).Some? && !Ready(present, ExtractExtension(s).value, o) ==>
              && next == acc.(skipped := acc.skipped + [FolderFailed(ExtractExtension(s).value)])
              && present' == present
    requires ExtractExtension(s).Some? && Ready(present, ExtractExtension(s).value, o) ==>
              Handled(s, sources[s], backups, present, o, acc, next, present')
    ensures Partial(sources, done + {s}, backups, present0, o, next, present')
  {
    NewFoldersAdd(done, s, present0, o);
    if ExtractExtension(s).None? {
      StepNoExtension(s, sources, backups, present0, o, acc, next, done);
    } else {
      var ext := ExtractExtension(s).value;
      // a folder made earlier in the call could be made
      if ext in NewFolders(done, present0, o) {
        NewFoldersMakeable(done, present0, o, ext);
      }
      assert Ready(present, ext, o) == Ready(present0, ext, o);
      if !Ready(present, ext, o) {
        StepNotReady(s, ext, sources, backups, present0, o, acc, next, done);
      } else {
        StepReady(s, ext, sources, backups, present0, present, present', o, acc, next, done);
      }
    }
  }

  /** `StepPreserves` for a source without extension, which changes nothing. */
  lemma StepNoExtension(s: string, sources: map<string, FilePath>, backups: map<string, FilePath>,
                        present0: set<string>, o: Oracle, acc: OrganizeResult, next: OrganizeResult, done: set<string>)
    requires s !in done
    requires ExtractExtension(s).None?
    requires multiset(acc.moved) == AllMoved(sources, done, backups, present0, o)
    requires multiset(acc.skipped) == AllSkipped(sources, done, backups, present0, o)
    requires next == acc
    ensures multiset(next.moved) == AllMoved(sources, done + {s}, backups, present0, o)
    ensures multiset(next.skipped) == AllSkipped(sources, done + {s}, backups, present0, o)
  {
    assert next.moved[|acc.moved|..] == [] && next.skipped[|acc.skipped|..] == [];
    ResultsStep(s, sources, backups, present0, o, acc, next, done);
  }

  /** `StepPreserves` for a source whose folder exists or can be made. */
  lemma StepReady(s: string, ext: string, sources: map<string, FilePath>, backups: map<string, FilePath>,
                  present0: set<string>, present: set<string>, present': set<string>, o: Oracle,
                  acc: OrganizeResult, next: OrganizeResult, done: set<string>)
    requires s in sources && s !in done
    requires ExtractExtension(s) == Some(ext) && Ready(present, ext, o) && Ready(present0, ext, o)
    requires present == present0 + NewFolders(done, present0, o)
    requires NewFolders(done + {s}, present0, o) ==
               NewFolders(done, present0, o) + (if !FolderPresent(present0, ext) && o.makeFolder(ext) then {ext} else {})
    requires forall e :: MoveDir(e) in acc.created <==> e in NewFolders(done, present0, o)
    requires forall c :: c in acc.created ==> InMove(c)
    requires forall i, j :: 0 <= i < j < |acc.created| ==> acc.created[i] != acc.created[j]
    requires multiset(acc.moved) == AllMoved(sources, done, backups, present0, o)
    requires multiset(acc.skipped) == AllSkipped(sources, done, backups, present0, o)
    requires Handled(s, sources[s], backups, present, o, acc, next, present')
    ensures present' == present0 + NewFolders(done + {s}, present0, o)
    ensures forall e :: MoveDir(e) in next.created <==> e in NewFolders(done + {s}, present0, o)
    ensures forall c :: c in next.created ==> InMove(c)
    ensures forall i, j :: 0 <= i < j < |next.created| ==> next.created[i] != next.created[j]
    ensures multiset(next.moved) == AllMoved(sources, done + {s}, backups, present0, o)
    ensures multiset(next.skipped) == AllSkipped(sources, done + {s}, backups, present0, o)
  {
    ResultsStep(s, sources, backups, present0, o, acc, next, done);
    FoldersStep(s, ext, present0, present, present', o, done);
    if !FolderPresent(present, ext) {
      CreatedAdd(acc.created, NewFolders(done, present0, o), ext);
    }
  }

  /** The folder part of `StepPreserves` for a source whose folder is ready. */
  lemma FoldersStep(s: string, ext: string, present0: set<string>, present: set<string>, present': set<string>,
                    o: Oracle, done: set<string>)
    requires ExtractExtension(s) == Some(ext)
    requires present == present0 + NewFolders(done, present0, o)
    requires present' == (if FolderPresent(present, ext) then present else present + {ext})
    requires NewFolders(done + {s}, present0, o) ==
               NewFolders(done, present0, o) + (if !FolderPresent(present0, ext) && o.makeFolder(ext) then {ext} else {})
    requires FolderPresent(present, ext) || o.makeFolder(ext)
    ensures present' == present0 + NewFolders(done + {s}, present0, o)
    ensures FolderPresent(present, ext) ==> NewFolders(done + {s}, present0, o) == NewFolders(done, present0, o)
    ensures !FolderPresent(present, ext) ==> NewFolders(done + {s}, present0, o) == NewFolders(done, present0, o) + {ext}
  {
  }

  /** `StepPreserves` for a source whose folder is absent and cannot be made. */
  lemma StepNotReady(s: string, ext: string, sources: map<string, FilePath>, backups: map<string, FilePath>,
                     present0: set<string>, o: Oracle, acc: OrganizeResult, next: OrganizeResult, done: set<string>)
    requires s in sources && s !in done
    requires ExtractExtension(s) == Some(ext) && !Ready(present0, ext, o)
    requires multiset(acc.moved) == AllMoved(sources, done, backups, present0, o)
    requires multiset(acc.skipped) == AllSkipped(sources, done, backups, present0, o)
    requires next == acc.(skipped := acc.skipped + [FolderFailed(ext)])
    ensures multiset(next.moved) == AllMoved(sources, done + {s}, backups, present0, o)
    ensures multiset(next.skipped) == AllSkipped(sources, done + {s}, backups, present0, o)
  {
    assert next.moved[|acc.moved|..] == [];
    assert next.skipped[|acc.skipped|..] == [FolderFailed(ext)];
    ResultsStep(s, sources, backups, present0, o, acc, next, done);
  }
}

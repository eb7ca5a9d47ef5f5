# File deduplication organizer — a Dafny model

The program is a desktop tool for sorting files. It takes a main folder with a
*source* subfolder and a *backup* subfolder. It collects the files of each
subfolder whose extension is on that subfolder's whitelist. Then it copies
every source file into `move/<ext>/` under the main folder, where `<ext>` is
the source file's lower-cased extension with its dot (`.pdf`). Every backup
file with the same base name goes into the same folder (`invoice.docx`
follows `invoice.pdf`). The call reports:

- the copies made (`moved_files`);
- the per-file failures (`skipped_files`);
- the extension folders it created (`created_folders`).

A second command lists the subdirectories of a folder in sorted order.

This project models the core of the Rust back end, `src-tauri/src/lib.rs`. It
is split into five modules:

- `Wrappers` — `Option` and `Result`.
- `FileNames` — `extract_extension`, `extract_name_without_ext`,
  `name_matches` and `is_extension_match`. It also models `Path::extension`
  on a file name, which `collect_files` uses in place of `extract_extension`.
  The module proves where the two rules agree and where they do not.
- `Directory` — an abstract snapshot of what a directory scan returns.
  - Each entry may have an unreadable name (not UTF-8) or unreadable
    metadata.
  - A path is missing, not a directory, or a directory whose scan may fail.
  - On top of the snapshot: `validate_path` (`ValidatePath`) and
    `collect_files`. The latter is a function `Collect` that specifies the
    scanning loop `CollectFiles`.
- `Listing` — `list_folder` (`ListFolder`): a scanning loop that keeps the
  directories, then `Vec::sort`. The sort is modelled as an insertion sort
  (`Sort`) on lexicographic order, proved to give the unique sorted
  permutation.
- `Organizer` — `process_files`:
  - `ProcessSource` is the body of the loop over the source files, and
    `CopyBackups` is its inner loop over the backup files.
  - `OrganizeAll` is the loop itself. The source files sit in a `HashMap`,
    so the order is modelled as an arbitrary choice of the next key.
  - `ProcessFiles` is the whole call.

The filesystem is modelled as follows:

- **State.** A `Snapshot` holds the subfolders of the main folder other than
  `move`, whether `move` exists, and the names inside `move` that can stand
  for an extension folder.
- **Outcomes.** Whether `create_dir_all` or `fs::copy` succeeds is an
  `Oracle`: fixed functions of the folder or of the source and destination
  paths.
- **Consequences.** A folder made earlier in the call could also have been
  made when first needed. So the outcome for each source file does not depend
  on the visiting order, and the whole call is specified without an order:
  - `moved` and `skipped` hold exactly the multisets `AllMoved` and
    `AllSkipped`, the sums of every source file's contribution, duplicates
    included;
  - `created` lists each folder of `NewFolders` exactly once, as
    `move/<ext>`, and nothing else;
  - a second call on the folders the first one left creates nothing.

Three details of the code shape the model:

- `collect_files` tests `Path::extension`, not the text from the last dot.
  So a file whose only dot leads its name (`.pdf`) is never collected
  (`LeadingDotDisagreement`).
- A name ending in a dot (`a.`) has the empty extension, which is tested as
  `.` (`TrailingDotExtension`). Its "folder" `move/.` is `move` itself, which
  always exists.
- Entry metadata comes from `DirEntry::metadata`, which does not follow
  symbolic links. The model keeps the is-file / is-directory flags abstract
  instead of committing to a link policy.

## Model

| member | source | states |
|---|---|---|
| FileNames.LastDot | src-tauri/src/lib.rs:169 | `rfind('.')`: none exactly when the name has no dot; otherwise a dot with no dot after it |
| FileNames.LastDotUnique | src-tauri/src/lib.rs:169 | any dot with no later dot is the one `rfind` returns |
| FileNames.LowerChar | src-tauri/src/lib.rs:170 | one character lower-cased: ASCII capitals map to small letters, everything else is kept |
| FileNames.ToLower | src-tauri/src/lib.rs:170 | lower-casing keeps the length and maps each character independently (ASCII letters only) |
| FileNames.ToLowerIdempotent | src-tauri/src/lib.rs:170 | lower-casing twice is lower-casing once |
| FileNames.ToLowerKeepsDots | src-tauri/src/lib.rs:170 | lower-casing neither moves, removes nor creates a dot |
| FileNames.ExtractExtension | src-tauri/src/lib.rs:167-171 | none exactly when the name has no dot; otherwise a non-empty suffix starting with its only dot, equal to the lower-cased tail of the name |
| FileNames.NameWithoutExt | src-tauri/src/lib.rs:173-179 | a prefix of the name: the whole name without a dot, else the text before the last dot |
| FileNames.NameExtensionRoundTrip | src-tauri/src/lib.rs:167-179 | base name plus original suffix rebuilds the name, and lower-casing that suffix gives the extension |
| FileNames.NameMatches | src-tauri/src/lib.rs:181-183 | two names match exactly when their base names are equal |
| FileNames.NameMatchesEquivalence | src-tauri/src/lib.rs:181-183 | `name_matches` is reflexive, symmetric and transitive |
| FileNames.BaseOfDotted | src-tauri/src/lib.rs:173-179 | the base name of `base.ext` is `base` when `ext` has no dot |
| FileNames.NameMatchesIgnoresExtension | src-tauri/src/lib.rs:181-183 | `b.e1` and `b.e2` always match |
| FileNames.NameMatchesCaseSensitive | src-tauri/src/lib.rs:181-183 | different bases never match, even when they differ only in letter case |
| FileNames.EqIgnoreAsciiCase | src-tauri/src/lib.rs:164 | `eq_ignore_ascii_case`: equal after lower-casing ASCII letters |
| FileNames.IsExtensionMatch | src-tauri/src/lib.rs:163-165 | true exactly when some whitelist entry equals the extension up to ASCII case; an empty whitelist matches nothing |
| FileNames.ExtensionMatchIgnoresCase | src-tauri/src/lib.rs:163-165 | the letter case of the tested extension never changes the answer |
| FileNames.PathExtension | src-tauri/src/lib.rs:146 | an extension exists exactly when the name is not `..` and has a dot after its first character; it is the dot-free text after the last dot |
| FileNames.DottedExtension | src-tauri/src/lib.rs:146-148 | the extension tested by `collect_files` exists exactly when `Path::extension` does; it is a dot followed by as many characters, none of them a dot |
| FileNames.ExtensionsAgree | src-tauri/src/lib.rs:146-148 | whenever `Path::extension` finds one, the dotted lower-cased form equals `extract_extension` |
| FileNames.LeadingDotDisagreement | src-tauri/src/lib.rs:146-148 | for `.rest` the rules disagree: none for `Path::extension`, `.rest` for `extract_extension` |
| FileNames.TrailingDotExtension | src-tauri/src/lib.rs:146-148 | `base.` has the dotted extension `.` |
| Directory.ValidatePath | src-tauri/src/lib.rs:124-132 | success exactly for a directory; not-found exactly for a missing path; not-a-directory exactly for anything else |
| Directory.Entries | src-tauri/src/lib.rs:140 | the entries of a readable directory; none when the path is not a directory or `read_dir` fails |
| Directory.Selected | src-tauri/src/lib.rs:142-149 | an entry is collected when its metadata reads as a regular file, its name is UTF-8 and its dotted extension is whitelisted |
| Directory.Collect | src-tauri/src/lib.rs:134-161 | a name is a key exactly when some selected entry (readable regular file, UTF-8 name, whitelisted dotted extension) has it; each key maps to the file in the folder |
| Directory.SelectedName | src-tauri/src/lib.rs:141-150 | some selected entry of the scan has this name |
| Directory.SelectedSnoc | src-tauri/src/lib.rs:141-150 | a name is selected in a scan exactly when it is selected before the last entry or in the last entry |
| Directory.CollectedNames | src-tauri/src/lib.rs:146-150 | every collected name has a dot that is not only its first character, and its `extract_extension` is whitelisted |
| Directory.CollectFiles | src-tauri/src/lib.rs:134-161 | the scanning loop builds exactly `Collect` of the scan, and an empty map when the scan fails |
| Listing.LessEq | src-tauri/src/lib.rs:54 | the order of `String`: lexicographic by character, a prefix first |
| Listing.LessEqTotal | src-tauri/src/lib.rs:54 | the string order is total |
| Listing.LessEqTransitive | src-tauri/src/lib.rs:54 | the string order is transitive |
| Listing.LessEqAntisymmetric | src-tauri/src/lib.rs:54 | the string order is antisymmetric |
| Listing.Sorted | src-tauri/src/lib.rs:54 | every element is no greater than every later one |
| Listing.InsertFront | src-tauri/src/lib.rs:54 | putting an element no greater than the first in front keeps the order |
| Listing.InsertBehind | src-tauri/src/lib.rs:54 | the first element followed by the sorted rest with the element inserted is sorted and has the right elements |
| Listing.Insert | src-tauri/src/lib.rs:54 | inserting into a sorted sequence gives a sorted sequence with that one element added |
| Listing.Sort | src-tauri/src/lib.rs:54 | the result is sorted and a permutation of the input |
| Listing.SortedSameFirst | src-tauri/src/lib.rs:54 | two sorted permutations of each other start with the same element |
| Listing.MultisetTail | src-tauri/src/lib.rs:54 | dropping the first element removes exactly one occurrence of it |
| Listing.SortedUnique | src-tauri/src/lib.rs:54 | two sorted permutations of each other are equal, so the sorted list is determined |
| Listing.IsListed | src-tauri/src/lib.rs:44-46 | an entry is listed when its metadata reads as a directory and its name is UTF-8 |
| Listing.DirNames | src-tauri/src/lib.rs:42-52 | a name is listed exactly when some readable directory entry with a UTF-8 name has it |
| Listing.ListFolder | src-tauri/src/lib.rs:29-56 | a missing path and a non-directory fail with their errors; a directory gives a sorted permutation of its listed names |
| Organizer.Resolve | src-tauri/src/lib.rs:68-70 | the state of a subfolder of the main folder; missing when not there |
| Organizer.MoveDir | src-tauri/src/lib.rs:95 | the record of a made folder, `move/<ext>` |
| Organizer.MoveDirInjective | src-tauri/src/lib.rs:95 | distinct extensions give distinct `move/<ext>` records |
| Organizer.InMove | src-tauri/src/lib.rs:95 | a path inside `move`: it starts with `move/` |
| Organizer.MoveDirInMove | src-tauri/src/lib.rs:95 | `move/<ext>` lies inside `move` and gives back `ext`; a path inside `move` is the record of what follows `move/` |
| Organizer.MovedEntry.Text | src-tauri/src/lib.rs:99 | the text `move/<ext>/<name>` of a moved entry |
| Organizer.Dest | src-tauri/src/lib.rs:98-106 | the copy of a file goes to `move/<ext>/<name>` under its own name |
| Organizer.TextLayout | src-tauri/src/lib.rs:99 | the text is `move/`, the extension, `/` and the name, in that order and at those positions |
| Organizer.TextInjective | src-tauri/src/lib.rs:99 | when extensions hold no `/`, equal texts come from equal entries, so the text loses nothing |
| Organizer.FolderPresent | src-tauri/src/lib.rs:88-90 | `ext_folder.exists()`: the extension folder was there, or it is `move/.`, which is `move` itself |
| Organizer.Ready | src-tauri/src/lib.rs:90-96 | the source can be copied: its folder exists or can be made |
| Organizer.Matching | src-tauri/src/lib.rs:104-105 | the backups whose base name is the source's |
| Organizer.BackupMoved | src-tauri/src/lib.rs:104-107 | one `move/<ext>/<backup>` entry for each matching backup whose copy succeeds |
| Organizer.BackupSkipped | src-tauri/src/lib.rs:104-110 | one failure for each matching backup whose copy fails |
| Organizer.BackupsCopied | src-tauri/src/lib.rs:104-112 | the backups of a set have been handled: one entry each for the matching ones, exactly their copies and failures |
| Organizer.CopyBackups | src-tauri/src/lib.rs:104-112 | `BackupsCopied`: keeps what came before, adds one entry per backup with the source's base name, and the added entries are, with multiplicity, exactly the successful and the failed backup copies |
| Organizer.BackupStep | src-tauri/src/lib.rs:105-111 | one backup visited keeps the invariant of the inner loop |
| Organizer.MatchingAdd | src-tauri/src/lib.rs:105 | one more visited backup adds one to the count of matching backups exactly when it matches |
| Organizer.BackupAdd | src-tauri/src/lib.rs:105-111 | one more visited backup adds exactly its own copy or failure, once, when it matches, and nothing otherwise |
| Organizer.BackupMovedRemove | src-tauri/src/lib.rs:104-107 | the successful backup copies do not depend on the order the `HashMap` of backups is visited |
| Organizer.BackupSkippedRemove | src-tauri/src/lib.rs:104-110 | the failed backup copies do not depend on the order the `HashMap` of backups is visited |
| Organizer.BackupMovedMembers | src-tauri/src/lib.rs:104-107 | every backup copy is of a backup file with the source's base name, filed under the source's extension |
| Organizer.MovedFor | src-tauri/src/lib.rs:98-107 | once the folder is ready: the source's own copy if it succeeds, plus the successful backup copies |
| Organizer.SkippedFor | src-tauri/src/lib.rs:98-110 | once the folder is ready: the source's copy failure if it fails, plus the failed backup copies |
| Organizer.Handled | src-tauri/src/lib.rs:88-112 | the per-source step for a source whose folder is ready: folder made and recorded once if absent, then one entry per copy |
| Organizer.ProcessSource | src-tauri/src/lib.rs:87-113 | no extension: nothing changes; folder absent and not makeable: only a folder failure is recorded; otherwise `Handled`: the folder is made and recorded once if absent, and the source and each matching backup add one entry each, the multisets `MovedFor` and `SkippedFor` |
| Organizer.SourceThenBackups | src-tauri/src/lib.rs:98-112 | the source's own copy followed by the backups yields the multisets `MovedFor` and `SkippedFor`, one entry per copy |
| Organizer.SourceMoved | src-tauri/src/lib.rs:87-107 | the copies a source file contributes: none without an extension or a ready folder, else `MovedFor` |
| Organizer.SourceSkipped | src-tauri/src/lib.rs:87-110 | the failures a source file contributes: none without an extension, the folder failure if its folder cannot be made, else `SkippedFor` |
| Organizer.AllMoved | src-tauri/src/lib.rs:86-111 | the sum of `SourceMoved` over a set of source files |
| Organizer.AllSkipped | src-tauri/src/lib.rs:86-110 | the sum of `SourceSkipped` over a set of source files |
| Organizer.NewFolder | src-tauri/src/lib.rs:88-96 | the folder a source file makes: its extension's, when absent at the start and makeable |
| Organizer.NewFolders | src-tauri/src/lib.rs:86-96 | the union of `NewFolder` over a set of source files |
| Organizer.NewFoldersRemove | src-tauri/src/lib.rs:88-96 | the folders made do not depend on the order the source files are visited |
| Organizer.NewFoldersMembers | src-tauri/src/lib.rs:88-96 | the folders made are exactly the extensions of source files whose folder was absent at the start and could be made |
| Organizer.NewFoldersMakeable | src-tauri/src/lib.rs:90-91 | every folder made was absent at the start and makeable |
| Organizer.NewFoldersAdd | src-tauri/src/lib.rs:88-96 | handling one more source adds at most its own extension folder |
| Organizer.AllMovedRemove | src-tauri/src/lib.rs:86-111 | the copies the call makes do not depend on the order the source files are visited |
| Organizer.AllSkippedRemove | src-tauri/src/lib.rs:86-110 | the failures the call records do not depend on the order the source files are visited |
| Organizer.AllMovedMembers | src-tauri/src/lib.rs:86-111 | every copy the call makes comes from one of the source files |
| Organizer.SourceRecorded | src-tauri/src/lib.rs:87-102 | a source file with an extension records at least one entry: a folder failure, its copy or its copy failure |
| Organizer.EveryFileRecorded | src-tauri/src/lib.rs:79-114 | the call records at least as many entries as there are collected source files |
| Organizer.SecondRunMakesNoFolder | src-tauri/src/lib.rs:90-96 | with the folders the first pass made, no source file needs a new folder |
| Organizer.SourceSameFromMade | src-tauri/src/lib.rs:87-112 | a source file contributes the same copies and failures whether or not folders that could be made already exist |
| Organizer.SameFromMadeFolders | src-tauri/src/lib.rs:86-114 | the whole call records the same copies and failures whether or not folders that could be made already exist |
| Organizer.SecondOrganizeCreatesNothing | src-tauri/src/lib.rs:82-114 | organizing again from the folders the first pass left records no created folder, the same moved and skipped entries as the first pass, and leaves the folders unchanged |
| Organizer.SecondRunCreatesNothing | src-tauri/src/lib.rs:61-121 | a successful second `process_files` on the filesystem the first successful call left returns an empty `created_folders`, the same `moved_files` and `skipped_files` entries as the first call, and leaves the filesystem as it was |
| Organizer.CreatedBound | src-tauri/src/lib.rs:95 | distinct records inside `move`, each of a made folder, are no more than the folders made |
| Organizer.MovedEntryShape | src-tauri/src/lib.rs:98-111 | every moved entry is `move/<ext>/<name>` for a source file's extension and that file or a backup with its base name |
| Organizer.CreatedAdd | src-tauri/src/lib.rs:95 | recording a newly made folder keeps `created` duplicate-free, inside `move`, and in step with the made folders |
| Organizer.StepPreserves | src-tauri/src/lib.rs:86-114 | one source handled keeps the order-free invariant `Partial` |
| Organizer.StepNoExtension | src-tauri/src/lib.rs:87 | a source without extension leaves the results in step |
| Organizer.StepNotReady | src-tauri/src/lib.rs:90-94 | a source whose folder cannot be made adds exactly its folder failure |
| Organizer.StepReady | src-tauri/src/lib.rs:88-112 | a source whose folder is ready adds its copies and at most one made folder |
| Organizer.FoldersStep | src-tauri/src/lib.rs:90-96 | the folder is added to `present` exactly when it was absent |
| Organizer.ResultsStep | src-tauri/src/lib.rs:98-112 | what a step adds is, with multiplicity, exactly that source's contribution to `moved` and `skipped` |
| Organizer.Partial | src-tauri/src/lib.rs:82-114 | the loop invariant: folders made, `created`, `moved` and `skipped` are exactly what the handled source files contribute |
| Organizer.Organized | src-tauri/src/lib.rs:82-114 | `Partial` over all the source files |
| Organizer.PartialStart | src-tauri/src/lib.rs:82-84 | empty vectors and no folder made satisfy the invariant for no files handled |
| Organizer.OrganizeOne | src-tauri/src/lib.rs:86-114 | one turn of the loop keeps `Partial` |
| Organizer.OrganizeAll | src-tauri/src/lib.rs:82-114 | after the loop `moved`/`skipped` are, as multisets, exactly `AllMoved`/`AllSkipped`, and `created` lists each made folder once as `move/<ext>` and nothing else |
| Organizer.ProcessFiles | src-tauri/src/lib.rs:61-121 | source checked first, then backup, then `move` made, each failure aborting with the filesystem unchanged; on success the whole call is `Organized` over the collected maps |

## Left out

- `select_folder` and `run`: the dialog and the Tauri application set-up are user interface, not logic.
- The filesystem effects: the model does not create folders or copy bytes. `create_dir_all` and `fs::copy` outcomes are oracle parameters, and joined paths are `FilePath` values.
- `Oracle.makeMove` decides `create_dir_all` of `move`, including the case where `move` already exists.
- `Oracle.makeFolder`: `create_dir_all` of one `move/<ext>` is taken to give the same outcome every time it is tried. The code tries it again for each later source file with the same extension while the folder is still absent, and on a real disk a retry may succeed or fail differently; the order-free specification of the whole call (`NewFolders`, `AllMoved`, `AllSkipped`) rests on this assumption.
- The order of `HashMap` iteration: modelled as an arbitrary choice. The order of entries within `moved_files`, `skipped_files` and `created_folders` is not specified; their multisets are.
- The message text of `skipped_files` and of the errors: kept as tags (`Skip`, `Error`) carrying the extension or file name. The OS error text is dropped. `MovedEntry.Text` gives the `move/<ext>/<name>` form of a moved entry.
- `Directory.ValidatePath` and `Organizer.ProcessFiles`: the errors carry the subfolder name, not the joined path the program prints.
- `FileNames.ToLower`: lower-cases ASCII letters only; Rust's `to_lowercase` also maps non-ASCII letters (Unicode case mapping is not modelled).
- `FileNames.LowerChar`: maps the ASCII capitals only, for the same reason as `FileNames.ToLower`.
- Non-UTF-8 names and extensions are represented by `Entry.name == None` and skipped, as the program skips them; `to_str` on the extension cannot fail once the name is UTF-8.
- Symbolic links: the snapshot's is-file and is-directory flags are taken as given by the scan.
- `Listing.Sort`: `Vec::sort` sorts in place and stably. The model computes the sorted sequence as a value, and because the sorted permutation is unique (`SortedUnique`) the result is the same.
- `Directory.CollectFiles`: `collect_files` returns a `Result`, but its only result is `Ok`, so the model returns the map directly.
- `Organizer.Snapshot`: `moveEntries` holds the names inside `move` that the call consults as extension folders. Files copied straight into `move` through the extension `.` are not added to it, and `move` itself is kept apart from `dirs`; the source and backup folders are assumed not to be `move`.
- `Organizer.OrganizeAll`: `created` is stated to list every made folder exactly once, as `move/<ext>`, and nothing else; its length equals the number of made folders, but only the bound `CreatedBound` is proved.
- `Organizer.SecondRunCreatesNothing`: the second call is taken to see the same outcomes of `create_dir_all` and `fs::copy` as the first (one `Oracle`); a folder whose creation failed once may succeed later on a real disk, and then the second call does create it.

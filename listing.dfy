/**
 * `list_folder`: the names of the subdirectories of a directory, sorted the
 * way Rust sorts `String`s (byte by byte, which for UTF-8 text is code point
 * by code point).
 */
module Listing {
  import opened Wrappers
  import opened Directory

  /** `a <= b` in lexicographic order: a proper prefix comes first. */
  predicate LessEq(a: string, b: string) {
    if a == [] then true
    else if b == [] then false
    else if a[0] != b[0] then a[0] < b[0]
    else LessEq(a[1..], b[1..])
  }

  lemma {:induction false} LessEqTotal(a: string, b: string)
    ensures LessEq(a, b) || LessEq(b, a)
  {
    if a != [] && b != [] && a[0] == b[0] {
      LessEqTotal(a[1..], b[1..]);
    }
  }

  lemma {:induction false} LessEqTransitive(a: string, b: string, c: string)
    requires LessEq(a, b) && LessEq(b, c)
    ensures LessEq(a, c)
  {
    if a != [] && b != [] && c != [] && a[0] == b[0] == c[0] {
      LessEqTransitive(a[1..], b[1..], c[1..]);
    }
  }

  lemma {:induction false} LessEqAntisymmetric(a: string, b: string)
    requires LessEq(a, b) && LessEq(b, a)
    ensures a == b
  {
    if a != [] && b != [] {
      LessEqAntisymmetric(a[1..], b[1..]);
      assert a == [a[0]] + a[1..] && b == [b[0]] + b[1..];
    }
  }

  predicate Sorted(s: seq<string>) {
    forall i, j :: 0 <= i < j < |s| ==> LessEq(s[i], s[j])
  }

  /** Putting an element no greater than the first in front keeps a sequence sorted. */
  lemma InsertFront(x: string, s: seq<string>)
    requires Sorted(s) && s != [] && LessEq(x, s[0])
    ensures Sorted([x] + s)
  {
    forall j | 0 <= j < |s| ensures LessEq(x, s[j]) {
      if j > 0 { LessEqTransitive(x, s[0], s[j]); }
    }
  }

  /** Keeping the first element in front of the rest with `x` inserted keeps the order. */
  lemma InsertBehind(x: string, s: seq<string>, t: seq<string>)
    requires Sorted(s) && s != [] && !LessEq(x, s[0])
    requires Sorted(t) && multiset(t) == multiset(s[1..]) + multiset{x}
    ensures Sorted([s[0]] + t)
    ensures multiset([s[0]] + t) == multiset(s) + multiset{x}
  {
    LessEqTotal(x, s[0]);
    forall j | 0 <= j < |t| ensures LessEq(s[0], t[j]) {
      assert t[j] in multiset(t);
      if t[j] != x {
        assert t[j] in multiset(s[1..]);
        var k :| 0 <= k < |s[1..]| && s[1..][k] == t[j];
        assert s[k + 1] == t[j];
      }
    }
    assert s == [s[0]] + s[1..];
  }

  /** Inserts `x` into a sorted sequence before the first element above it. */
  function Insert(x: string, s: seq<string>): (r: seq<string>)
    requires Sorted(s)
    ensures Sorted(r)
    ensures multiset(r) == multiset(s) + multiset{x}
  {
    if s == [] then [x]
    else if LessEq(x, s[0]) then
      InsertFront(x, s);
      assert s == [s[0]] + s[1..];
      [x] + s
    else
      var t := Insert(x, s[1..]);
      InsertBehind(x, s, t);
      [s[0]] + t
  }

  /**
   * `Vec::sort` on strings: a sorted permutation of its input (insertion
   * sort; all sorted permutations are equal, see SortedUnique).
   */
  function Sort(s: seq<string>): (r: seq<string>)
    ensures Sorted(r)
    ensures multiset(r) == multiset(s)
  {
    if s == [] then []
    else
      assert s == s[..|s| - 1] + [s[|s| - 1]];
      Insert(s[|s| - 1], Sort(s[..|s| - 1]))
  }

  /** Two sorted permutations of each other start with the same element. */
  lemma SortedSameFirst(a: seq<string>, b: seq<string>)
    requires Sorted(a) && Sorted(b) && multiset(a) == multiset(b) && a != []
    ensures b != [] && a[0] == b[0]
  {
    assert a[0] in multiset(b);
    var i :| 0 <= i < |b| && b[i] == a[0];
    assert b[0] in multiset(a);
    var j :| 0 <= j < |a| && a[j] == b[0];
    if a[0] != b[0] {
      assert LessEq(b[0], b[i]) && LessEq(a[0], a[j]);
      LessEqAntisymmetric(a[0], b[0]);
    }
  }

  /** Dropping the first element removes one occurrence of it. */
  lemma MultisetTail(a: seq<string>)
    requires a != []
    ensures multiset(a[1..]) == multiset(a) - multiset{a[0]}
  {
    assert a == [a[0]] + a[1..];
  }

  /** A sorted permutation is unique: the result of sorting is determined. */
  lemma {:induction false} SortedUnique(a: seq<string>, b: seq<string>)
    requires Sorted(a) && Sorted(b) && multiset(a) == multiset(b)
    ensures a == b
  {
    if a != [] {
      SortedSameFirst(a, b);
      MultisetTail(a);
      MultisetTail(b);
      SortedUnique(a[1..], b[1..]);
      assert a == [a[0]] + a[1..] && b == [b[0]] + b[1..];
    } else {
      assert |multiset(b)| == 0;
    }
  }

  /** An entry `list_folder` keeps: a readable directory with a UTF-8 name. */
  predicate IsListed(e: Entry) {
    e.meta.Some? && e.meta.value.isDir && e.name.Some?
  }

  /** The names of the listed entries, in scan order. */
  function DirNames(es: seq<Entry>): (r: seq<string>)
    ensures forall x :: x in r <==> exists i :: 0 <= i < |es| && IsListed(es[i]) && es[i].name == Some(x)
    ensures |r| <= |es|
  {
    if es == [] then []
    else
      var e := es[|es| - 1];
      assert forall i :: 0 <= i < |es| - 1 ==> es[..|es| - 1][i] == es[i];
      DirNames(es[..|es| - 1]) + (if IsListed(e) then [e.name.value] else [])
  }

  /**
   * `list_folder`: fails on a missing path or one that is not a directory;
   * otherwise returns exactly the listed names, each as often as it was
   * scanned, in sorted order. A directory that cannot be read lists nothing.
   */
  method ListFolder(path: string, st: PathState) returns (r: Result<seq<string>, Error>)
    ensures st.Missing? ==> r == Failure(PathNotFound(path))
    ensures st.NotDirectory? ==> r == Failure(NotADirectory(path))
    ensures st.Directory? ==> r.Success? && Sorted(r.value)
    ensures st.Directory? ==> multiset(r.value) == multiset(DirNames(Entries(st)))
  {
    var check := ValidatePath(path, st);
    if check.Failure? {
      return Failure(check.error);
    }
    var folders: seq<string> := [];
    if st.scan.Some? {
      var es := st.scan.value;
      for i := 0 to |es|
        invariant folders == DirNames(es[..i])
      {
        assert es[..i + 1][..i] == es[..i];
        var e := es[i];
        if e.meta.Some? && e.meta.value.isDir && e.name.Some? {
          folders := folders + [e.name.value];
        }
      }
      assert es[..|es|] == es;
    }
    folders := Sort(folders);
    return Success(folders);
  }
}

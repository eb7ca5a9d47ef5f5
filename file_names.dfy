/**
 * The file-name helpers of the organizer: `extract_extension`,
 * `extract_name_without_ext`, `name_matches`, `is_extension_match`, and the
 * standard library's `Path::extension`, which `collect_files` uses instead of
 * `extract_extension`. Lower-casing is ASCII lower-casing.
 */
module FileNames {
  import opened Wrappers

  /** ASCII lower-casing of one character; every other character is kept. */
  function LowerChar(c: char): char {
    if 'A' <= c <= 'Z' then (c as int + 32) as char else c
  }

  /** ASCII lower-casing of a string, character by character. */
  function ToLower(s: string): (r: string)
    ensures |r| == |s|
    ensures forall i :: 0 <= i < |s| ==> r[i] == LowerChar(s[i])
  {
    if s == [] then [] else [LowerChar(s[0])] + ToLower(s[1..])
  }

  /** Lower-casing is idempotent. */
  lemma ToLowerIdempotent(s: string)
    ensures ToLower(ToLower(s)) == ToLower(s)
  {
  }

  /** Lower-casing keeps every dot where it is and creates no new one. */
  lemma ToLowerKeepsDots(s: string)
    ensures forall i :: 0 <= i < |s| ==> (ToLower(s)[i] == '.' <==> s[i] == '.')
    ensures ('.' in ToLower(s)) <==> ('.' in s)
  {
    if '.' in ToLower(s) {
      var i :| 0 <= i < |s| && ToLower(s)[i] == '.';
      assert s[i] == '.';
    }
  }

  /** `str::rfind('.')`: the index of the last dot, if there is one. */
  function LastDot(s: string): (r: Option<nat>)
    ensures r.None? <==> '.' !in s
    ensures r.Some? ==> r.value < |s| && s[r.value] == '.' && '.' !in s[r.value + 1..]
  {
    if s == [] then None
    else if s[|s| - 1] == '.' then Some(|s| - 1)
    else
      var r := LastDot(s[..|s| - 1]);
      assert s == s[..|s| - 1] + [s[|s| - 1]];
      if r.Some? then
        assert s[r.value + 1..] == s[..|s| - 1][r.value + 1..] + [s[|s| - 1]];
        r
      else r
  }

  /** Any dot with no dot after it is the one `LastDot` finds. */
  lemma LastDotUnique(s: string, p: nat)
    requires p < |s| && s[p] == '.' && '.' !in s[p + 1..]
    ensures LastDot(s) == Some(p)
  {
    assert '.' in s;
  }

  /**
   * `extract_extension`: the suffix of the name from its last dot on,
   * lower-cased; nothing when the name has no dot.
   */
  function ExtractExtension(name: string): (r: Option<string>)
    ensures r.None? <==> '.' !in name
    ensures r.Some? ==>
              && 1 <= |r.value| <= |name|
              && r.value[0] == '.'
              && '.' !in r.value[1..]
              && r.value == ToLower(name[|name| - |r.value|..])
  {
    match LastDot(name)
    case None => None
    case Some(p) =>
      ToLowerKeepsDots(name[p..]);
      assert '.' !in ToLower(name[p..])[1..] by {
        ToLowerKeepsDots(name[p + 1..]);
        assert name[p..][1..] == name[p + 1..];
        assert ToLower(name[p..])[1..] == ToLower(name[p + 1..]);
      }
      Some(ToLower(name[p..]))
  }

  /**
   * `extract_name_without_ext`: the name up to (not including) its last dot,
   * or the whole name when it has no dot.
   */
  function NameWithoutExt(name: string): (r: string)
    ensures r <= name
    ensures '.' !in name ==> r == name
    ensures '.' in name ==> |r| < |name| && name[|r|] == '.' && '.' !in name[|r| + 1..]
  {
    match LastDot(name)
    case None => name
    case Some(p) => name[..p]
  }

  /**
   * Round trip: the base name followed by the original (not lower-cased)
   * suffix from the last dot is the name again, and lower-casing that suffix
   * gives the extension.
   */
  lemma {:induction false} NameExtensionRoundTrip(name: string)
    ensures ExtractExtension(name).None? ==> NameWithoutExt(name) == name
    ensures ExtractExtension(name).Some? ==>
              var base := NameWithoutExt(name);
              && |base| + |ExtractExtension(name).value| == |name|
              && base + name[|base|..] == name
              && ToLower(name[|base|..]) == ExtractExtension(name).value
  {
    if '.' in name {
      var base := NameWithoutExt(name);
      LastDotUnique(name, |base|);
      assert base + name[|base|..] == name;
    }
  }

  /** `name_matches`: equal base names, compared exactly (case-sensitively). */
  predicate NameMatches(a: string, b: string) {
    NameWithoutExt(a) == NameWithoutExt(b)
  }

  /** `name_matches` is an equivalence relation. */
  lemma NameMatchesEquivalence()
    ensures forall a :: NameMatches(a, a)
    ensures forall a, b :: NameMatches(a, b) ==> NameMatches(b, a)
    ensures forall a, b, c :: NameMatches(a, b) && NameMatches(b, c) ==> NameMatches(a, c)
  {
  }

  /** The base name of `base.ext` is `base` when `ext` has no dot. */
  lemma {:induction false} BaseOfDotted(base: string, ext: string)
    requires '.' !in ext
    ensures NameWithoutExt(base + "." + ext) == base
  {
    var n := base + "." + ext;
    assert n[|base| + 1..] == ext;
    LastDotUnique(n, |base|);
    assert n[..|base|] == base;
  }

  /**
   * Two names with the same base match whatever their extensions, so
   * `invoice.pdf` matches `invoice.docx`.
   */
  lemma {:induction false} NameMatchesIgnoresExtension(base: string, e1: string, e2: string)
    requires '.' !in e1 && '.' !in e2
    ensures NameMatches(base + "." + e1, base + "." + e2)
  {
    BaseOfDotted(base, e1);
    BaseOfDotted(base, e2);
  }

  /**
   * Names whose bases differ do not match, even when the bases differ only
   * in letter case (`Invoice.pdf` against `invoice.pdf`).
   */
  lemma {:induction false} NameMatchesCaseSensitive(b1: string, b2: string, e1: string, e2: string)
    requires '.' !in e1 && '.' !in e2 && b1 != b2
    ensures !NameMatches(b1 + "." + e1, b2 + "." + e2)
  {
    BaseOfDotted(b1, e1);
    BaseOfDotted(b2, e2);
  }

  /** `str::eq_ignore_ascii_case`: equal after ASCII lower-casing. */
  predicate EqIgnoreAsciiCase(a: string, b: string) {
    ToLower(a) == ToLower(b)
  }

  /**
   * `is_extension_match`: some whitelist entry equals `ext` up to ASCII
   * letter case, tried from the front as `Iterator::any` does.
   */
  function IsExtensionMatch(ext: string, whitelist: seq<string>): (r: bool)
    ensures r <==> exists i :: 0 <= i < |whitelist| && EqIgnoreAsciiCase(whitelist[i], ext)
    ensures whitelist == [] ==> !r
  {
    if whitelist == [] then false
    else EqIgnoreAsciiCase(whitelist[0], ext) || IsExtensionMatch(ext, whitelist[1..])
  }

  /**
   * Matching ignores the letter case of the extension tested: `.PDF` and
   * `.pdf` are matched by the same whitelists.
   */
  lemma ExtensionMatchIgnoresCase(ext: string, whitelist: seq<string>)
    ensures IsExtensionMatch(ToLower(ext), whitelist) == IsExtensionMatch(ext, whitelist)
  {
    ToLowerIdempotent(ext);
    if IsExtensionMatch(ext, whitelist) {
      var i :| 0 <= i < |whitelist| && EqIgnoreAsciiCase(whitelist[i], ext);
      assert EqIgnoreAsciiCase(whitelist[i], ToLower(ext));
    }
  }

  /**
   * `Path::extension` of a file name: the text after the last dot, except
   * that a name whose only dot is its first character (`.pdf`), a name with
   * no dot, and `..` have none.
   */
  function PathExtension(name: string): (r: Option<string>)
    ensures r.Some? <==> name != ".." && |name| > 1 && '.' in name[1..]
    ensures r.Some? ==>
              && |r.value| + 1 < |name|
              && name[|name| - |r.value| - 1] == '.'
              && name[|name| - |r.value|..] == r.value
              && '.' !in r.value
  {
    if name == ".." then None
    else match LastDot(name)
      case None => None
      case Some(p) =>
        if p == 0 then
          assert name[1..] == name[p + 1..];
          None
        else
          assert name[1..][p - 1] == '.';
          Some(name[p + 1..])
  }

  /**
   * The extension `collect_files` tests against the whitelist: `.` and the
   * `Path::extension`, lower-cased.
   */
  function DottedExtension(name: string): (r: Option<string>)
    ensures r.Some? <==> PathExtension(name).Some?
    ensures r.Some? ==> |r.value| == |PathExtension(name).value| + 1 && r.value[0] == '.' && '.' !in r.value[1..]
  {
    match PathExtension(name)
    case None => None
    case Some(x) => Some(ToLower("." + x))
  }

  /**
   * Wherever `Path::extension` finds an extension, `extract_extension` finds
   * the same one in dotted, lower-cased form; so the organizer's guard on
   * `extract_extension` never fails for a collected file.
   */
  lemma {:induction false} ExtensionsAgree(name: string)
    requires DottedExtension(name).Some?
    ensures ExtractExtension(name) == DottedExtension(name)
  {
    var x := PathExtension(name).value;
    var p := |name| - |x| - 1;
    LastDotUnique(name, p);
    assert name[p..] == "." + x;
  }

  /**
   * The two rules disagree on a name whose only dot leads it: `.pdf` has
   * the extension `.pdf` for `extract_extension` but none for
   * `Path::extension`, so such a file is never collected.
   */
  lemma {:induction false} LeadingDotDisagreement(rest: string)
    requires '.' !in rest
    ensures DottedExtension("." + rest).None?
    ensures ExtractExtension("." + rest) == Some(ToLower("." + rest))
  {
    var n := "." + rest;
    assert n[1..] == rest;
    LastDotUnique(n, 0);
  }

  /** A trailing dot gives `Path::extension` the empty extension, dotted as `.`. */
  lemma {:induction false} TrailingDotExtension(base: string)
    requires |base| > 0 && '.' !in base
    ensures DottedExtension(base + ".") == Some(".")
  {
    var n := base + ".";
    assert n[1..][|base| - 1] == '.';
    LastDotUnique(n, |base|);
    assert n[0] == base[0] != '.';
    assert n[|base| + 1..] == "";
    assert PathExtension(n) == Some("");
    assert "." + "" == ".";
    assert ToLower(".")[0] == LowerChar('.') == '.';
  }
}

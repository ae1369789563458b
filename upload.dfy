/**
 * Admission rules for uploaded files: the allowed extensions, the size
 * bounds handed to multer, and multer's `fileFilter`, which checks the
 * extension, then the mimetype, then the name length, and rejects with the
 * first failing check's message.
 */
module Upload {
  import opened Wrappers
  import opened Strings

  const AllowedExtensions: seq<string> := [".jpg", ".jpeg", ".png", ".gif", ".webp", ".svg", ".avif", ".tiff"]
  const MaxFileSize: int := 10 * 1024 * 1024
  const MinFileSize: int := 1
  const MaxNameLength: int := 255

  const ExtensionPrefix: string := "Only these file types are allowed: "
  const MimetypeMessage: string := "Only image files are allowed"
  const NameLengthMessage: string := "Filename is too long (max 255 characters)"

  // ---------------------------------------------------------------------
  // path.extname (POSIX)
  // ---------------------------------------------------------------------

  /** The path without its trailing slashes. */
  function TrimSlashes(p: string): (r: string)
    ensures |r| <= |p| && r == p[..|r|]
    ensures r == [] || r[|r| - 1] != '/'
    ensures forall i :: |r| <= i < |p| ==> p[i] == '/'
  {
    if p == [] || p[|p| - 1] != '/' then p else TrimSlashes(p[..|p| - 1])
  }

  /** The last position of `c` in `s`, if any. */
  function LastIndexOf(s: string, c: char): (r: Option<nat>)
    ensures r.Some? ==> r.value < |s| && s[r.value] == c && forall i :: r.value < i < |s| ==> s[i] != c
    ensures r.None? ==> forall i :: 0 <= i < |s| ==> s[i] != c
  {
    if s == [] then None
    else if s[|s| - 1] == c then Some(|s| - 1)
    else LastIndexOf(s[..|s| - 1], c)
  }

  /** The last path component, trailing slashes removed. */
  function BaseName(p: string): (r: string)
    ensures forall i :: 0 <= i < |r| ==> r[i] != '/'
  {
    var t := TrimSlashes(p);
    match LastIndexOf(t, '/')
    case None => t
    case Some(k) => t[k + 1..]
  }

  /** `path.extname`: from the last dot of the last component to its end;
      empty when that component has no dot, starts with its only dot
      (`.bashrc`), or is `..`. */
  function ExtName(p: string): (r: string)
    ensures r == [] || r[0] == '.'
    ensures forall i :: 0 <= i < |r| ==> r[i] != '/'
  {
    var b := BaseName(p);
    match LastIndexOf(b, '.')
    case None => ""
    case Some(k) => if k == 0 || b == ".." then "" else b[k..]
  }

  // ---------------------------------------------------------------------
  // fileFilter
  // ---------------------------------------------------------------------

  function ExtensionMessage(): string
  {
    ExtensionPrefix + Join(AllowedExtensions, ", ")
  }

  /** multer's `fileFilter`: Ok to accept the file, Err(message) to reject it
      with `new Error(message)`. */
  function FileFilter(originalName: string, mimetype: string): (r: Result<(), string>)
    ensures r.Ok? <==> && Lower(ExtName(originalName)) in AllowedExtensions
                       && StartsWith(mimetype, "image/")
                       && Utf16Length(originalName) <= MaxNameLength
    ensures Lower(ExtName(originalName)) !in AllowedExtensions ==> r == Err(ExtensionMessage())
    ensures Lower(ExtName(originalName)) in AllowedExtensions && !StartsWith(mimetype, "image/") ==>
              r == Err(MimetypeMessage)
    ensures (Lower(ExtName(originalName)) in AllowedExtensions && StartsWith(mimetype, "image/") &&
             Utf16Length(originalName) > MaxNameLength) ==> r == Err(NameLengthMessage)
  {
    if Lower(ExtName(originalName)) !in AllowedExtensions then Err(ExtensionMessage())
    else if !StartsWith(mimetype, "image/") then Err(MimetypeMessage)
    else if Utf16Length(originalName) > MaxNameLength then Err(NameLengthMessage)
    else Ok(())
  }

  // ---------------------------------------------------------------------
  // Properties
  // ---------------------------------------------------------------------

  /** The rejection message names every allowed extension and contains the
      words "file types". */
  lemma ExtensionMessageText()
    ensures forall i :: 0 <= i < |AllowedExtensions| ==> Contains(ExtensionMessage(), AllowedExtensions[i])
    ensures Contains(ExtensionMessage(), "file types")
  {
    var list := Join(AllowedExtensions, ", ");
    forall i | 0 <= i < |AllowedExtensions|
      ensures Contains(ExtensionMessage(), AllowedExtensions[i])
    {
      JoinLists(AllowedExtensions, ", ", i);
      ContainsAfter(ExtensionPrefix, list, AllowedExtensions[i]);
    }
    var m := ExtensionMessage();
    FileTypesInPrefix();
    assert m[11..21] == ExtensionPrefix[11..21];
    assert OccursAt(m, "file types", 11);
  }

  lemma FileTypesInPrefix()
    ensures ExtensionPrefix[11..21] == "file types"
  {
    var p := ExtensionPrefix;
    assert p[11] == 'f' && p[12] == 'i' && p[13] == 'l' && p[14] == 'e' && p[15] == ' ';
    assert p[16] == 't' && p[17] == 'y' && p[18] == 'p' && p[19] == 'e' && p[20] == 's';
  }

  lemma {:induction false} TrimSlashesLower(p: string)
    ensures TrimSlashes(Lower(p)) == Lower(TrimSlashes(p))
    decreases |p|
  {
    if p != [] && p[|p| - 1] == '/' {
      assert Lower(p)[..|p| - 1] == Lower(p[..|p| - 1]);
      TrimSlashesLower(p[..|p| - 1]);
    }
  }

  /** Lower-casing changes no slash and no dot, so they stay where they were. */
  lemma {:induction false} LastIndexOfLower(s: string, c: char)
    requires c == '/' || c == '.'
    ensures LastIndexOf(Lower(s), c) == LastIndexOf(s, c)
    decreases |s|
  {
    if s != [] && s[|s| - 1] != c {
      LowerPrefix(s, |s| - 1);
      LastIndexOfLower(s[..|s| - 1], c);
    }
  }

  lemma LowerPrefix(s: string, n: nat)
    requires n <= |s|
    ensures Lower(s)[..n] == Lower(s[..n])
  {
  }

  lemma BaseNameLower(p: string)
    ensures BaseName(Lower(p)) == Lower(BaseName(p))
  {
    TrimSlashesLower(p);
    LastIndexOfLower(TrimSlashes(p), '/');
  }

  lemma {:induction false} LowerSuffix(s: string, k: nat)
    requires k <= |s|
    ensures Lower(s[k..]) == Lower(s)[k..]
  {
    if k > 0 {
      LowerSuffix(s[1..], k - 1);
      assert s[1..][k - 1..] == s[k..];
      assert Lower(s) == [LowerChar(s[0])] + Lower(s[1..]);
    }
  }

  lemma LowerDotDot(s: string)
    ensures Lower(s) == ".." <==> s == ".."
  {
    if Lower(s) == ".." {
      assert s == [s[0], s[1]];
    }
  }

  /** `path.extname(name).toLowerCase()` is the extension of the lower-cased
      name, so the extension check ignores case. */
  lemma ExtNameLower(p: string)
    ensures ExtName(Lower(p)) == Lower(ExtName(p))
  {
    var b := BaseName(p);
    BaseNameLower(p);
    LastIndexOfLower(b, '.');
    match LastIndexOf(b, '.')
    case None =>
    case Some(k) => LowerSuffix(b, k); LowerDotDot(b);
  }

  /** Renaming a file by changing the case of its letters never changes the
      extension verdict. */
  lemma ExtensionCheckIgnoresCase(p: string, q: string)
    requires Lower(p) == Lower(q)
    ensures (Lower(ExtName(p)) in AllowedExtensions) == (Lower(ExtName(q)) in AllowedExtensions)
  {
    ExtNameLower(p);
    ExtNameLower(q);
  }

}

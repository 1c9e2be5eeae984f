/**
 * Brand media helpers: the brand-name sanitising used to build storage
 * paths, and the media list kept on a brand document, with its removal and
 * append operations.
 */
module BrandMedia {
  import opened Wrappers

  // ---------------------------------------------------------------------
  // Brand-name sanitising
  // ---------------------------------------------------------------------

  predicate IsAsciiAlnum(c: char) {
    'a' <= c <= 'z' || 'A' <= c <= 'Z' || '0' <= c <= '9'
  }

  /** A character the generator expression keeps: alphanumeric, space, '-' or '_'. */
  predicate Kept(c: char) {
    IsAsciiAlnum(c) || c == ' ' || c == '-' || c == '_'
  }

  /** A character that may appear in a sanitised name: a kept one other than space. */
  predicate PathSafe(c: char) {
    IsAsciiAlnum(c) || c == '-' || c == '_'
  }

  /** The characters of `s` that are kept, in order. */
  function KeepAllowed(s: string): (r: string)
    ensures |r| <= |s|
    ensures forall i :: 0 <= i < |r| ==> Kept(r[i])
  {
    if s == [] then []
    else if Kept(s[0]) then [s[0]] + KeepAllowed(s[1..])
    else KeepAllowed(s[1..])
  }

  /** `s` without its trailing spaces. */
  function TrimTrailingSpaces(s: string): (r: string)
    ensures |r| <= |s| && r == s[..|r|]
    ensures r == [] || r[|r| - 1] != ' '
    ensures forall i :: |r| <= i < |s| ==> s[i] == ' '
  {
    if s == [] then []
    else if s[|s| - 1] == ' ' then TrimTrailingSpaces(s[..|s| - 1])
    else s
  }

  /** `s` with every space replaced by an underscore. */
  function SpacesToUnderscores(s: string): (r: string)
    ensures |r| == |s|
    ensures forall i :: 0 <= i < |s| ==> r[i] == (if s[i] == ' ' then '_' else s[i])
  {
    if s == [] then [] else [if s[0] == ' ' then '_' else s[0]] + SpacesToUnderscores(s[1..])
  }

  /**
   * The sanitised brand name: drop the characters that are not kept, strip
   * trailing spaces, then turn the remaining spaces into underscores. The
   * result has only path-safe characters (and, by SanitizeCounts, every
   * alphanumeric and '-' of the input, as often as the input has it).
   */
  function SanitizeBrandName(brandName: string): (r: string)
    ensures |r| <= |brandName|
    ensures forall i :: 0 <= i < |r| ==> PathSafe(r[i])
  {
    SpacesToUnderscores(TrimTrailingSpaces(KeepAllowed(brandName)))
  }

  /** The filter keeps every allowed character as often as the input has it. */
  lemma {:induction false} KeepAllowedCounts(s: string)
    ensures forall c :: Kept(c) ==> multiset(KeepAllowed(s))[c] == multiset(s)[c]
  {
    if s != [] {
      KeepAllowedCounts(s[1..]);
      assert s == [s[0]] + s[1..];
    }
  }

  /** Trimming removes spaces only. */
  lemma TrimTrailingSpacesCounts(s: string)
    ensures forall c :: c != ' ' ==> multiset(TrimTrailingSpaces(s))[c] == multiset(s)[c]
  {
    var r := TrimTrailingSpaces(s);
    var cut := s[|r|..];
    assert s == r + cut;
    assert forall c :: c != ' ' ==> c !in cut;
  }

  /** Replacing spaces leaves every character other than space and '_' as often as it was. */
  lemma {:induction false} SpacesToUnderscoresCounts(s: string)
    ensures forall c :: c != ' ' && c != '_' ==> multiset(SpacesToUnderscores(s))[c] == multiset(s)[c]
  {
    if s != [] {
      SpacesToUnderscoresCounts(s[1..]);
      assert s == [s[0]] + s[1..];
      assert SpacesToUnderscores(s) == [if s[0] == ' ' then '_' else s[0]] + SpacesToUnderscores(s[1..]);
    }
  }

  /** Sanitising keeps every alphanumeric and '-' of the name, as often as the name has it. */
  lemma SanitizeCounts(brandName: string)
    ensures forall c :: PathSafe(c) && c != '_' ==> multiset(SanitizeBrandName(brandName))[c] == multiset(brandName)[c]
  {
    KeepAllowedCounts(brandName);
    TrimTrailingSpacesCounts(KeepAllowed(brandName));
    SpacesToUnderscoresCounts(TrimTrailingSpaces(KeepAllowed(brandName)));
  }

  /** Filtering a concatenation filters each part: the kept characters stay in input order. */
  lemma {:induction false} KeepAllowedAppend(a: string, b: string)
    ensures KeepAllowed(a + b) == KeepAllowed(a) + KeepAllowed(b)
  {
    if a != [] {
      KeepAllowedAppend(a[1..], b);
      assert (a + b)[0] == a[0] && (a + b)[1..] == a[1..] + b;
    } else {
      assert a + b == b;
    }
  }

  /** A single character is kept exactly when it is allowed. */
  lemma KeepAllowedSingleton(c: char)
    ensures KeepAllowed([c]) == (if Kept(c) then [c] else [])
  {
    assert [c][1..] == [];
  }

  /** Replacing spaces in a concatenation replaces them in each part. */
  lemma SpacesToUnderscoresAppend(a: string, b: string)
    ensures SpacesToUnderscores(a + b) == SpacesToUnderscores(a) + SpacesToUnderscores(b)
  {
    var whole := SpacesToUnderscores(a + b);
    var parts := SpacesToUnderscores(a) + SpacesToUnderscores(b);
    assert forall i :: 0 <= i < |a| ==> whole[i] == parts[i];
    assert forall i :: |a| <= i < |a| + |b| ==> whole[i] == parts[i];
  }

  /** Trimming cuts only at the end: before a part that keeps something, nothing is cut. */
  lemma TrimTrailingSpacesAppend(a: string, b: string)
    requires TrimTrailingSpaces(b) != []
    ensures TrimTrailingSpaces(a + b) == a + TrimTrailingSpaces(b)
  {
    var x := a + b;
    var r := TrimTrailingSpaces(x);
    var t := TrimTrailingSpaces(b);
    var k := |a| + |t|;
    assert x[k - 1] == t[|t| - 1];
    assert |r| >= k;
    assert r[|r| - 1] == x[|r| - 1];
    assert x[|r| - 1] == b[|r| - 1 - |a|];
    assert |r| == k;
    assert x[..k] == a + t;
  }

  /**
   * Sanitising in parts: when the last part of a name keeps something, the
   * name sanitises to the kept characters of the first part, in order and
   * with spaces as '_', followed by the last part's sanitised form.
   */
  lemma SanitizeAppend(a: string, b: string)
    requires SanitizeBrandName(b) != []
    ensures SanitizeBrandName(a + b) == SpacesToUnderscores(KeepAllowed(a)) + SanitizeBrandName(b)
  {
    KeepAllowedAppend(a, b);
    TrimTrailingSpacesAppend(KeepAllowed(a), KeepAllowed(b));
    SpacesToUnderscoresAppend(KeepAllowed(a), TrimTrailingSpaces(KeepAllowed(b)));
  }

  lemma {:induction false} KeepAllowedOfKept(s: string)
    requires forall i :: 0 <= i < |s| ==> Kept(s[i])
    ensures KeepAllowed(s) == s
  {
    if s != [] {
      KeepAllowedOfKept(s[1..]);
    }
  }

  /** A name made only of path-safe characters is its own sanitised form. */
  lemma SanitizeKeepsSafeName(s: string)
    requires forall i :: 0 <= i < |s| ==> PathSafe(s[i])
    ensures SanitizeBrandName(s) == s
  {
    KeepAllowedOfKept(s);
    assert TrimTrailingSpaces(s) == s;
  }

  /** Sanitising twice gives the same name as sanitising once. */
  lemma SanitizeIdempotent(brandName: string)
    ensures SanitizeBrandName(SanitizeBrandName(brandName)) == SanitizeBrandName(brandName)
  {
    SanitizeKeepsSafeName(SanitizeBrandName(brandName));
  }

  /** Inner spaces become underscores, other punctuation and trailing spaces go. */
  lemma SanitizeExample()
    ensures SanitizeBrandName("a b! ") == "a_b"
  {
    KeepAllowedExample();
    assert TrimTrailingSpaces("a b ") == "a b";
  }

  lemma KeepAllowedExample()
    ensures KeepAllowed("a b! ") == "a b "
  {
    assert KeepAllowed("! ") == " ";
  }

  // ---------------------------------------------------------------------
  // Media list of a brand document
  // ---------------------------------------------------------------------

  /** A stored media entry; an entry stored without an id has `fileId == None`. */
  datatype MediaFile = MediaFile(fileId: Option<string>, storagePath: Option<string>, mediaType: string)

  /** The media fields of a brand document. */
  datatype BrandData = BrandData(mediaFiles: seq<MediaFile>, mediaCount: int)

  datatype MediaError = MediaFileNotFound

  /** The outcome of a deletion: the deleted entry and the updated document. */
  datatype Removal = Removal(deleted: MediaFile, brand: BrandData)

  predicate Matches(f: MediaFile, fileId: string) {
    f.fileId == Some(fileId)
  }

  /** Both operations keep the stored count equal to the list length. */
  predicate CountConsistent(b: BrandData) {
    b.mediaCount == |b.mediaFiles|
  }

  /** The entries that do not carry `fileId`, in order. */
  function Remaining(files: seq<MediaFile>, fileId: string): (r: seq<MediaFile>)
    ensures |r| <= |files|
  {
    if files == [] then []
    else
      var rest := Remaining(files[..|files| - 1], fileId);
      var last := files[|files| - 1];
      if Matches(last, fileId) then rest else rest + [last]
  }

  /** The entries of a concatenation that are kept are those of each part, in order. */
  lemma {:induction false} RemainingAppend(a: seq<MediaFile>, b: seq<MediaFile>, fileId: string)
    ensures Remaining(a + b, fileId) == Remaining(a, fileId) + Remaining(b, fileId)
  {
    if b != [] {
      var prefix := b[..|b| - 1];
      RemainingAppend(a, prefix, fileId);
      assert (a + b)[..|a + b| - 1] == a + prefix;
    } else {
      assert a + b == a;
    }
  }

  /** A single entry is kept exactly when it does not carry `fileId`. */
  lemma RemainingSingleton(f: MediaFile, fileId: string)
    ensures Remaining([f], fileId) == (if Matches(f, fileId) then [] else [f])
  {
    assert [f][..0] == [];
  }

  /** The kept entries are exactly the entries that do not carry `fileId`. */
  lemma {:induction false} RemainingMembers(files: seq<MediaFile>, fileId: string)
    ensures forall f :: f in Remaining(files, fileId) <==> f in files && !Matches(f, fileId)
  {
    if files != [] {
      var prefix := files[..|files| - 1];
      RemainingMembers(prefix, fileId);
      assert files == prefix + [files[|files| - 1]];
    }
  }

  /** The position of the last entry that carries `fileId`, or -1 when none does. */
  function LastMatchIndex(files: seq<MediaFile>, fileId: string): (k: int)
    ensures -1 <= k < |files|
    ensures k >= 0 ==> Matches(files[k], fileId)
    ensures forall j :: k < j < |files| ==> !Matches(files[j], fileId)
  {
    if files == [] then -1
    else if Matches(files[|files| - 1], fileId) then |files| - 1
    else LastMatchIndex(files[..|files| - 1], fileId)
  }

  /** The last entry that carries `fileId`, if any. */
  function LastMatch(files: seq<MediaFile>, fileId: string): Option<MediaFile> {
    var k := LastMatchIndex(files, fileId);
    if k < 0 then None else Some(files[k])
  }

  /**
   * Delete the entry with id `fileId`: every matching entry leaves the list,
   * the last of them is reported as deleted, and the count is recomputed.
   * No matching entry is an error.
   */
  method DeleteMediaFile(brand: BrandData, fileId: string) returns (r: Result<Removal, MediaError>)
    ensures r.Failure? <==> LastMatchIndex(brand.mediaFiles, fileId) < 0
    ensures r.Failure? ==> r.error == MediaFileNotFound
    ensures r.Success? ==> r.value.deleted == brand.mediaFiles[LastMatchIndex(brand.mediaFiles, fileId)]
    ensures r.Success? ==> r.value.brand.mediaFiles == Remaining(brand.mediaFiles, fileId)
    ensures r.Success? ==> CountConsistent(r.value.brand)
  {
    var files := brand.mediaFiles;
    var fileToDelete: Option<MediaFile> := None;
    var updated: seq<MediaFile> := [];
    var i := 0;
    while i < |files|
      invariant 0 <= i <= |files|
      invariant fileToDelete == LastMatch(files[..i], fileId)
      invariant updated == Remaining(files[..i], fileId)
    {
      assert files[..i + 1][..i] == files[..i];
      if files[i].fileId == Some(fileId) {
        fileToDelete := Some(files[i]);
      } else {
        updated := updated + [files[i]];
      }
      i := i + 1;
    }
    assert files[..i] == files;
    if fileToDelete.None? {
      return Failure(MediaFileNotFound);
    }
    r := Success(Removal(fileToDelete.value, BrandData(updated, |updated|)));
  }

  /** Append newly uploaded entries after the existing ones and recompute the count. */
  function AppendMedia(brand: BrandData, newFiles: seq<MediaFile>): (r: BrandData)
    ensures |r.mediaFiles| == |brand.mediaFiles| + |newFiles|
    ensures r.mediaFiles[..|brand.mediaFiles|] == brand.mediaFiles
    ensures r.mediaFiles[|brand.mediaFiles|..] == newFiles
    ensures CountConsistent(r)
  {
    var files := brand.mediaFiles + newFiles;
    BrandData(files, |files|)
  }

  lemma {:induction false} RemainingWithoutMatch(files: seq<MediaFile>, fileId: string)
    requires forall i :: 0 <= i < |files| ==> !Matches(files[i], fileId)
    ensures Remaining(files, fileId) == files
  {
    if files != [] {
      var prefix := files[..|files| - 1];
      assert forall i :: 0 <= i < |prefix| ==> prefix[i] == files[i];
      RemainingWithoutMatch(prefix, fileId);
      assert files == prefix + [files[|files| - 1]];
    }
  }

  /**
   * Deleting an entry just appended under an id no existing entry carries
   * gives back the list as it was before the append.
   */
  lemma DeleteUndoesAppend(brand: BrandData, f: MediaFile, fileId: string)
    requires Matches(f, fileId)
    requires forall i :: 0 <= i < |brand.mediaFiles| ==> !Matches(brand.mediaFiles[i], fileId)
    ensures LastMatchIndex(AppendMedia(brand, [f]).mediaFiles, fileId) == |brand.mediaFiles|
    ensures Remaining(AppendMedia(brand, [f]).mediaFiles, fileId) == brand.mediaFiles
  {
    var files := AppendMedia(brand, [f]).mediaFiles;
    assert files[..|files| - 1] == brand.mediaFiles;
    RemainingWithoutMatch(brand.mediaFiles, fileId);
  }
}

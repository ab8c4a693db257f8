/**
 * The file and folder names the Bunkr and Gofile downloaders derive. Both classes carry the
 * same `clean_filename` and `get_consistent_folder_name`, so they are defined once here.
 * The MD5 digest is a parameter: a function from the URL to its 32-character hexadecimal digest.
 */
module Naming {
  import opened Text

  predicate IsHexChar(c: char) {
    IsDigitChar(c) || 'a' <= c <= 'f'
  }

  /** A `hexdigest()` of MD5: 32 lower-case hexadecimal characters. */
  type HexDigest = s: string | |s| == 32 && forall i :: 0 <= i < |s| ==> IsHexChar(s[i])
    witness "00000000000000000000000000000000"

  /** The characters `clean_filename` replaces: `<>:"/\|?*` and the zero-width space. */
  const Forbidden: set<char> := {'<', '>', ':', '"', '/', '\\', '|', '?', '*', '\U{200B}'}

  /** `clean_filename(name)`: each forbidden character becomes '_', every other one stays. */
  function CleanFilename(name: string): (r: string)
    ensures |r| == |name|
    ensures forall i :: 0 <= i < |r| ==> r[i] !in Forbidden
    ensures forall i :: 0 <= i < |name| && name[i] !in Forbidden ==> r[i] == name[i]
    ensures forall i :: 0 <= i < |name| && name[i] in Forbidden ==> r[i] == '_'
  {
    ReplaceEach(name, Forbidden, '_')
  }

  /** Cleaning a clean name changes nothing, so cleaning twice is cleaning once. */
  lemma {:induction false} CleanFilenameIdempotent(name: string)
    ensures CleanFilename(CleanFilename(name)) == CleanFilename(name)
  {
    var c := CleanFilename(name);
    assert forall i :: 0 <= i < |c| ==> CleanFilename(c)[i] == c[i];
  }

  /** The first eight characters of the digest of `url`. */
  function UrlHash8(md5: string -> HexDigest, url: string): (r: string)
    ensures |r| == 8 && forall i :: 0 <= i < 8 ==> IsHexChar(r[i])
  {
    md5(url)[..8]
  }

  /** `get_consistent_folder_name(url, name)`: the cleaned `name + "_" + hash8`. */
  function ConsistentFolderName(md5: string -> HexDigest, url: string, name: string): (r: string)
    ensures |r| == |name| + 9
    ensures EndsWith(r, "_" + UrlHash8(md5, url))
    ensures r[..|name|] == CleanFilename(name)
  {
    var h := UrlHash8(md5, url);
    var r := CleanFilename(name + "_" + h);
    assert forall i :: 0 <= i < 8 ==> h[i] !in Forbidden;
    assert r[|name| + 1..] == h;
    r
  }

  /**
   * Folder names of two downloads agree exactly when the cleaned names and the URL hashes
   * agree, so a download started again lands in the folder of the first one.
   */
  lemma {:induction false} ConsistentFolderNameEquality(md5: string -> HexDigest, url1: string, name1: string, url2: string, name2: string)
    ensures ConsistentFolderName(md5, url1, name1) == ConsistentFolderName(md5, url2, name2)
            <==> CleanFilename(name1) == CleanFilename(name2) && UrlHash8(md5, url1) == UrlHash8(md5, url2)
  {
    var r1 := ConsistentFolderName(md5, url1, name1);
    var r2 := ConsistentFolderName(md5, url2, name2);
    var n := |name1|;
    if |name1| != |name2| {
      assert |r1| != |r2|;
      assert |CleanFilename(name1)| != |CleanFilename(name2)|;
    } else if r1 == r2 {
      assert UrlHash8(md5, url1) == r1[n + 1..] == UrlHash8(md5, url2);
    }
    if |name1| == |name2| && CleanFilename(name1) == CleanFilename(name2) && UrlHash8(md5, url1) == UrlHash8(md5, url2) {
      assert r1[..n] == r2[..n];
      assert r1[n..] == r2[n..];
      assert r1 == r1[..n] + r1[n..];
      assert r2 == r2[..n] + r2[n..];
    }
  }

  /** A name with no forbidden character keeps its spelling: the folder is the name, "_" and the hash. */
  lemma {:induction false} ConsistentFolderNameOfClean(md5: string -> HexDigest, url: string, name: string)
    requires forall i :: 0 <= i < |name| ==> name[i] !in Forbidden
    ensures ConsistentFolderName(md5, url, name) == name + "_" + UrlHash8(md5, url)
  {
    var r := ConsistentFolderName(md5, url, name);
    ReplaceEachKeepsClean(name, Forbidden, '_');
    assert r[..|name|] == name;
    assert r[|name|..] == "_" + UrlHash8(md5, url);
    assert r == r[..|name|] + r[|name|..];
  }
}

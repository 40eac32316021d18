/**
 * The pure string rules of the video cutter in app.py: which uploaded file
 * names are accepted (`allowed_file`) and how the stored upload and the
 * trimmed output are named.
 */
module UploadNames {
  import opened Wrappers

  /** The configured allow-list of extensions (app.py line 16). */
  const AllowedExtensions: set<string> := {"mp4", "mov", "avi", "mkv", "webm"}

  /** KELVIN SIGN, the one non-ASCII character that Python lower-cases to an ASCII letter. */
  const KelvinSign: char := '\U{212A}'

  /**
   * Python's `str.lower()` on one character, as far as it can matter for an
   * ASCII allow-list: ASCII capitals become small letters and the Kelvin sign
   * becomes 'k'; every other character is left as it is.
   */
  function LowerChar(c: char): (r: char)
    ensures r == '.' <==> c == '.'
    ensures 'a' <= r <= 'z' <==> ('a' <= c <= 'z' || 'A' <= c <= 'Z' || c == KelvinSign)
  {
    if 'A' <= c <= 'Z' then (c as int + 32) as char
    else if c == KelvinSign then 'k'
    else c
  }

  /** `s.lower()` on the characters `LowerChar` covers, one character at a time from the front. */
  function Lower(s: string): (r: string)
    ensures |r| == |s| && forall i :: 0 <= i < |s| ==> r[i] == LowerChar(s[i])
    ensures '.' in r <==> '.' in s
    ensures forall c :: c in r ==> !('A' <= c <= 'Z') && c != KelvinSign
    decreases |s|
  {
    if s == [] then [] else [LowerChar(s[0])] + Lower(s[1..])
  }

  /** Lower-casing works piece by piece: the lower-cased join is the join of the lower-cased parts. */
  lemma {:induction false} LowerConcat(a: string, b: string)
    ensures Lower(a + b) == Lower(a) + Lower(b)
    decreases |a|
  {
    if a != [] {
      assert (a + b)[1..] == a[1..] + b;
      LowerConcat(a[1..], b);
    }
  }

  /** Lower-casing twice is lower-casing once. */
  lemma LowerIdempotent(s: string)
    ensures Lower(Lower(s)) == Lower(s)
  {
  }

  /** The index of the last occurrence of `c` in `s`, or -1 when there is none. */
  function LastIndex(s: string, c: char): (r: int)
    ensures -1 <= r < |s|
    ensures r == -1 <==> c !in s
    ensures 0 <= r ==> s[r] == c && c !in s[r + 1..]
    decreases |s|
  {
    if s == [] then -1
    else if s[|s| - 1] == c then |s| - 1
    else
      var r := LastIndex(s[..|s| - 1], c);
      assert s == s[..|s| - 1] + [s[|s| - 1]];
      assert r >= 0 ==> s[r + 1..] == s[..|s| - 1][r + 1..] + [s[|s| - 1]];
      r
  }

  /** `s.rsplit(sep, 1)`: the whole string, or the text before and after the last `sep`. */
  function RSplitOnce(s: string, sep: char): (parts: seq<string>)
    ensures sep !in s ==> parts == [s]
    ensures sep in s ==> |parts| == 2 && s == parts[0] + [sep] + parts[1] && sep !in parts[1]
  {
    var i := LastIndex(s, sep);
    if i < 0 then [s]
    else
      assert s == s[..i] + [sep] + s[i + 1..];
      [s[..i], s[i + 1..]]
  }

  /**
   * `allowed_file` (app.py lines 36-38): there is a dot, and the lower-cased
   * text after the right-most dot is an allowed extension.
   */
  predicate AllowedFile(filename: string): (ok: bool)
    ensures ok ==> '.' in filename && |filename| >= 4
  {
    && '.' in filename
    && var parts := RSplitOnce(filename, '.');
       Lower(parts[1]) in AllowedExtensions
  }

  /** Two dots at different positions cannot both be the last one. */
  lemma LastDotUnique(s: string, i: int, j: int)
    requires 0 <= i < |s| && s[i] == '.' && '.' !in s[i + 1..]
    requires 0 <= j < |s| && s[j] == '.' && '.' !in s[j + 1..]
    ensures i == j
  {
  }

  /**
   * The meaning of `allowed_file`, stated without rsplit: some dot of the name
   * has no dot after it, and the lower-cased text after that dot is allowed.
   */
  lemma AllowedFileIff(filename: string)
    ensures AllowedFile(filename) <==>
      exists i :: 0 <= i < |filename| && filename[i] == '.' && '.' !in filename[i + 1..]
        && Lower(filename[i + 1..]) in AllowedExtensions
  {
  }

  /** A name without a dot is never accepted (app.py line 37). */
  lemma NoDotRejected(filename: string)
    requires '.' !in filename
    ensures !AllowedFile(filename)
  {
  }

  /**
   * Only the last dot counts: whatever comes before it, even more dots, the
   * verdict is decided by the final extension alone (app.py line 38).
   */
  lemma LastExtensionDecides(head: string, ext: string)
    requires '.' !in ext
    ensures AllowedFile(head + "." + ext) <==> Lower(ext) in AllowedExtensions
  {
    var f := head + "." + ext;
    var i := |head|;
    assert f[i] == '.' && f[i + 1..] == ext;
    AllowedFileIff(f);
    if AllowedFile(f) {
      var j :| 0 <= j < |f| && f[j] == '.' && '.' !in f[j + 1..]
        && Lower(f[j + 1..]) in AllowedExtensions;
      LastDotUnique(f, i, j);
    }
  }

  /** A dot earlier in the name is ignored: "x.mp4.exe" is rejected. */
  lemma HiddenExtensionRejected()
    ensures !AllowedFile("x.mp4.exe")
  {
    assert "x.mp4.exe" == "x.mp4" + "." + "exe";
    LastExtensionDecides("x.mp4", "exe");
    LowerExample("exe", "exe");
  }

  /** The comparison ignores case: "x.exe.MP4" is accepted. */
  lemma UpperCaseExtensionAccepted()
    ensures AllowedFile("x.exe.MP4")
  {
    assert "x.exe.MP4" == "x.exe" + "." + "MP4";
    LastExtensionDecides("x.exe", "MP4");
    LowerExample("MP4", "mp4");
  }

  /** Lower-casing a three-letter word, one character at a time. */
  lemma LowerExample(w: string, l: string)
    requires |w| == 3 && |l| == 3
    requires LowerChar(w[0]) == l[0] && LowerChar(w[1]) == l[1] && LowerChar(w[2]) == l[2]
    ensures Lower(w) == l
  {
  }

  /** The check ignores case: names that lower-case alike get the same verdict. */
  lemma CaseInsensitive(f: string, g: string)
    requires Lower(f) == Lower(g)
    ensures AllowedFile(f) <==> AllowedFile(g)
  {
    if AllowedFile(f) {
      AcceptanceCarriesOver(f, g);
    }
    if AllowedFile(g) {
      AcceptanceCarriesOver(g, f);
    }
  }

  /** One direction of `CaseInsensitive`. */
  lemma AcceptanceCarriesOver(f: string, g: string)
    requires Lower(f) == Lower(g) && AllowedFile(f)
    ensures AllowedFile(g)
  {
    AllowedFileIff(f);
    var i :| 0 <= i < |f| && f[i] == '.' && '.' !in f[i + 1..] && Lower(f[i + 1..]) in AllowedExtensions;
    SameLastExtension(f, g, i);
    AllowedFileIff(g);
  }

  /** A last dot of one name is a last dot of any name that lower-cases alike, with the same extension. */
  lemma SameLastExtension(f: string, g: string, i: int)
    requires Lower(f) == Lower(g)
    requires 0 <= i < |f| && f[i] == '.' && '.' !in f[i + 1..]
    ensures |g| == |f| && g[i] == '.' && '.' !in g[i + 1..] && Lower(g[i + 1..]) == Lower(f[i + 1..])
  {
  }

  /** Prefix of every stored upload (app.py line 92). */
  const UploadPrefix: string := "vikas_"

  /** Prefix of every trimmed output (app.py line 112). */
  const OutputPrefix: string := "vikas_trimmed_"

  /** Length of `uuid.uuid4().hex`. */
  const TokenLength: nat := 32

  /** `f"vikas_{token}_{original}"` (app.py line 92). */
  function UploadName(token: string, original: string): (r: string)
    ensures |r| == |UploadPrefix| + |token| + 1 + |original|
    ensures r[..|UploadPrefix|] == UploadPrefix && r[|r| - |original|..] == original
  {
    UploadPrefix + token + "_" + original
  }

  /** `f"vikas_trimmed_{filename}"` (app.py line 112). */
  function OutputName(uploadName: string): (r: string)
    ensures |r| == |OutputPrefix| + |uploadName|
    ensures r[..|OutputPrefix|] == OutputPrefix && r[|OutputPrefix|..] == uploadName
  {
    OutputPrefix + uploadName
  }

  /**
   * Recovers the token and the original name from an output name built with a
   * token of the fixed uuid length; the inverse of OutputName after UploadName.
   */
  function ParseOutputName(s: string): (r: Option<(string, string)>)
    ensures r.Some? ==> |r.value.0| == TokenLength && s == OutputName(UploadName(r.value.0, r.value.1))
  {
    var n := |OutputPrefix| + |UploadPrefix|;
    if |s| < n + TokenLength + 1 || s[..|OutputPrefix|] != OutputPrefix
      || s[|OutputPrefix|..n] != UploadPrefix || s[n + TokenLength] != '_'
    then None
    else Some((s[n..n + TokenLength], s[n + TokenLength + 1..]))
  }

  /** Parsing an output name built from a uuid-length token gives back the token and the name. */
  lemma OutputNameRoundTrip(token: string, original: string)
    requires |token| == TokenLength
    ensures ParseOutputName(OutputName(UploadName(token, original))) == Some((token, original))
  {
    var s := OutputName(UploadName(token, original));
    var n := |OutputPrefix| + |UploadPrefix|;
    assert s == OutputPrefix + UploadPrefix + token + "_" + original;
    assert s[..|OutputPrefix|] == OutputPrefix;
    assert s[|OutputPrefix|..n] == UploadPrefix;
    assert s[n..n + TokenLength] == token;
    assert s[n + TokenLength] == '_';
    assert s[n + TokenLength + 1..] == original;
  }

  /** Two uploads with different uuid tokens never get the same output name. */
  lemma DistinctTokensDistinctOutputs(t1: string, n1: string, t2: string, n2: string)
    requires |t1| == TokenLength && |t2| == TokenLength && t1 != t2
    ensures OutputName(UploadName(t1, n1)) != OutputName(UploadName(t2, n2))
    ensures UploadName(t1, n1) != UploadName(t2, n2)
  {
    OutputNameRoundTrip(t1, n1);
    OutputNameRoundTrip(t2, n2);
  }

  /**
   * The fixed token length is what keeps names apart: with tokens of
   * different lengths two different uploads can share one name.
   */
  lemma UnequalTokenLengthsCollide()
    ensures UploadName("a", "b_c") == UploadName("a_b", "c")
    ensures OutputName(UploadName("a", "b_c")) == OutputName(UploadName("a_b", "c"))
  {
  }
}

/** The file-extension check applied to an uploaded proof of payment. */
module Uploads {
  import opened Wrappers

  /** The extensions a proof of payment may have: images and PDF. */
  const AllowedExtensions: set<string> := {"png", "jpg", "jpeg", "gif", "pdf"}

  function ToLowerAscii(c: char): (d: char)
    ensures 'A' <= c <= 'Z' ==> 'a' <= d <= 'z' && d as int - 'a' as int == c as int - 'A' as int
    ensures !('A' <= c <= 'Z') ==> d == c
  {
    if 'A' <= c <= 'Z' then (c as int - 'A' as int + 'a' as int) as char else c
  }

  /** `s.lower()`, for the letters that can matter when the result is compared with ASCII extensions. */
  function Lower(s: string): (r: string)
    ensures |r| == |s| && forall k :: 0 <= k < |s| ==> r[k] == ToLowerAscii(s[k])
  {
    if s == [] then [] else [ToLowerAscii(s[0])] + Lower(s[1..])
  }

  /** The index of the last occurrence of `c` in `s`, if any. */
  function LastIndexOf(s: string, c: char): (r: Option<nat>)
    ensures r.None? <==> c !in s
    ensures r.Some? ==> r.value < |s| && s[r.value] == c && c !in s[r.value + 1..]
  {
    if s == [] then None
    else if s[|s| - 1] == c then Some(|s| - 1)
    else match LastIndexOf(s[..|s| - 1], c)
      case None => None
      case Some(k) =>
        assert s[k + 1..] == s[..|s| - 1][k + 1..] + [s[|s| - 1]];
        Some(k)
  }

  /** `i` is the position of the last dot in `s`. */
  predicate IsLastDot(s: string, i: nat) {
    i < |s| && s[i] == '.' && '.' !in s[i + 1..]
  }

  lemma {:induction false} LastDotUnique(s: string, i: nat, j: nat)
    requires IsLastDot(s, i) && IsLastDot(s, j)
    ensures i == j
  {
  }

  lemma AllowedAtLastDot(s: string, i: nat)
    requires IsLastDot(s, i)
    ensures (exists j :: IsLastDot(s, j) && Lower(s[j + 1..]) in AllowedExtensions)
        <==> Lower(s[i + 1..]) in AllowedExtensions
  {
    forall j | IsLastDot(s, j) ensures j == i { LastDotUnique(s, i, j); }
  }

  /**
   * `allowed_file(filename)`: the name has a dot, and the text after its last
   * dot, lower-cased, is one of the allowed extensions.
   */
  function AllowedFile(filename: string): (ok: bool)
    ensures ok <==> exists i :: IsLastDot(filename, i) && Lower(filename[i + 1..]) in AllowedExtensions
  {
    match LastIndexOf(filename, '.')
    case None => false
    case Some(i) =>
      AllowedAtLastDot(filename, i);
      Lower(filename[i + 1..]) in AllowedExtensions
  }

  /** Upper-case extensions pass: the comparison is made after lower-casing. */
  lemma UpperCaseExtensionAllowed()
    ensures AllowedFile("x.PDF") && AllowedFile("scan.JpEg")
  {
    assert IsLastDot("x.PDF", 1) && "x.PDF"[2..] == "PDF";
    assert Lower("PDF") == "pdf";
    assert IsLastDot("scan.JpEg", 4) && "scan.JpEg"[5..] == "JpEg";
    assert Lower("JpEg") == "jpeg";
  }

  /** Only the text after the LAST dot counts. */
  lemma LastExtensionDecides()
    ensures AllowedFile("a.b.jpg") && !AllowedFile("x.pdf.exe")
  {
    assert IsLastDot("a.b.jpg", 3) && "a.b.jpg"[4..] == "jpg";
    assert Lower("jpg") == "jpg";
    var f := "x.pdf.exe";
    assert IsLastDot(f, 5) && f[6..] == "exe";
    forall i | IsLastDot(f, i) ensures Lower(f[i + 1..]) !in AllowedExtensions {
      LastDotUnique(f, i, 5);
      assert Lower("exe") == "exe";
    }
  }

  /** A name without a dot never passes, and a bare extension after a dot does. */
  lemma DotRequired()
    ensures !AllowedFile("pdf") && AllowedFile(".gif")
  {
    assert forall i :: !IsLastDot("pdf", i);
    assert IsLastDot(".gif", 0) && ".gif"[1..] == "gif";
    assert Lower("gif") == "gif";
  }
}

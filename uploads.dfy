/** The upload folder of the backend and the rewriting of a relative image path
    into a URL under it, written identically in the courses-by-subcategory page
    and the exam grid: an absolute URL is kept; otherwise the leading slashes and
    one leading "uploads/" are dropped and the rest is put under the folder. */
module Uploads {
  import opened Text

  const UPLOAD_BASE: string := "https://xiadot.com/admin_maths/uploads/"

  /** The rewriting of the cleaned text: absolute URLs pass, anything else is put
      under the upload folder. */
  function Rewrite(clean: string): (r: string)
    ensures r != []
    ensures IsAbsolute(clean) ==> r == clean
    ensures !IsAbsolute(clean) ==> r == UPLOAD_BASE + UploadName(clean)
  {
    if IsAbsolute(clean) then
      assert clean[0] == 'h';
      clean
    else UPLOAD_BASE + UploadName(clean)
  }

  /** The file part: the text with its leading slashes and then one leading
      "uploads/" dropped, which is a tail of the text. */
  function UploadName(clean: string): (n: string)
    ensures |n| <= |clean| && n == clean[|clean| - |n|..]
    ensures !StartsWith(clean, "/") && !StartsWith(clean, "uploads/") ==> n == clean
  {
    var t := StripLeading(clean, '/');
    var n := DropPrefix(t, "uploads/");
    assert n == t[|t| - |n|..];
    n
  }

  /** A string under the upload folder is an absolute URL. */
  lemma UploadIsAbsolute(r: string)
    requires |UPLOAD_BASE| <= |r| && r[..|UPLOAD_BASE|] == UPLOAD_BASE
    ensures IsAbsolute(r)
  {
    assert r[..8] == UPLOAD_BASE[..8];
  }

  lemma UploadBaseFacts()
    ensures |UPLOAD_BASE| == 39 && UPLOAD_BASE[38] == '/' && '\\' !in UPLOAD_BASE
  {
  }

  /** Rewriting is idempotent: what it produces is an absolute URL, which it keeps. */
  lemma RewriteIdempotent(s: string)
    ensures Rewrite(Rewrite(s)) == Rewrite(s)
  {
    if !IsAbsolute(s) {
      UploadIsAbsolute(Rewrite(s));
    }
  }

  lemma RewriteBare(f: string)
    requires PlainName(f)
    ensures Rewrite(f) == UPLOAD_BASE + f
  {
    assert f[0] in f;
    assert !StartsWith(f, "uploads/") && !IsAbsolute(f) by {
      if |f| > 7 { assert f[7] in f; }
      if |f| > 6 { assert f[6] in f; }
      if |f| > 5 { assert f[5] in f; }
    }
    assert StripLeading(f, '/') == f;
  }

  lemma RewriteUploads(f: string)
    ensures Rewrite("uploads/" + f) == UPLOAD_BASE + f
  {
    var s := "uploads/" + f;
    assert s[0] == 'u' && !IsAbsolute(s);
    assert StripLeading(s, '/') == s;
    assert StartsWith(s, "uploads/") && s[8..] == f;
  }

  lemma RewriteSlashUploads(f: string)
    ensures Rewrite("/uploads/" + f) == UPLOAD_BASE + f
  {
    var s := "/uploads/" + f;
    assert s[0] == '/' && !IsAbsolute(s);
    assert s[1..] == "uploads/" + f;
    assert StripLeading(s[1..], '/') == s[1..];
    assert StripLeading(s, '/') == "uploads/" + f;
    assert ("uploads/" + f)[8..] == f;
  }

  lemma RewriteEmpty()
    ensures Rewrite([]) == UPLOAD_BASE
  {
    assert StripLeading([], '/') == [];
  }
}

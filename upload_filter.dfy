/**
 * The upload filter: a file is accepted when its declared mimetype is on
 * the document/audio list, or when the lower-cased extension of its
 * original name is on the extension list. The extension is taken the way
 * Node's POSIX `path.extname` takes it.
 */
module UploadFilter {
  import opened Text

  const AllowedMimeTypes: seq<string> := [
    "application/pdf",
    "application/msword",
    "application/vnd.openxmlformats-officedocument.wordprocessingml.document",
    "text/plain",
    "audio/wav",
    "audio/mp3",
    "audio/mpeg",
    "audio/ogg",
    "audio/m4a",
    "audio/aac",
    "audio/webm",
    "audio/flac"
  ]

  const AllowedExtensions: seq<string> := [
    ".pdf", ".doc", ".docx", ".txt", ".wav", ".mp3", ".m4a", ".aac", ".ogg", ".webm", ".flac"
  ]

  /** The characters after the last '/' of `q`. */
  function LastComponent(q: string): (b: string)
    ensures |b| <= |q|
    ensures forall i :: 0 <= i < |b| ==> b[i] != '/'
  {
    if q == [] || q[|q| - 1] == '/' then [] else LastComponent(q[..|q| - 1]) + [q[|q| - 1]]
  }

  /** The last path component, trailing separators ignored. */
  function BaseName(p: string): (b: string)
    ensures forall i :: 0 <= i < |b| ==> b[i] != '/'
  {
    if p != [] && p[|p| - 1] == '/' then BaseName(p[..|p| - 1]) else LastComponent(p)
  }

  /**
   * `path.extname(p)`: the base name from its last '.' on, or "" when the
   * base name has no '.', when its last '.' is its first character, or
   * when it is exactly "..".
   */
  function Extname(p: string): (e: string)
    ensures e == [] || (e[0] == '.' && forall i :: 1 <= i < |e| ==> e[i] != '.' && e[i] != '/')
    ensures e != [] ==> |e| < |BaseName(p)| && e == BaseName(p)[|BaseName(p)| - |e|..]
    ensures e == [] <==> LastIndexOf(BaseName(p), '.') <= 0 || BaseName(p) == ".."
  {
    var b := BaseName(p);
    var dot := LastIndexOf(b, '.');
    if dot <= 0 || b == ".." then "" else b[dot..]
  }

  /** `c` does not occur in `s`. */
  predicate Lacks(s: string, c: char)
  {
    forall i :: 0 <= i < |s| ==> s[i] != c
  }

  /** The last `c` of `a + [c] + b` is the one after `a` when `b` holds none. */
  lemma {:induction false} LastIndexOfLast(a: string, c: char, b: string)
    requires Lacks(b, c)
    ensures LastIndexOf(a + [c] + b, c) == |a|
    decreases |b|
  {
    var s := a + [c] + b;
    if b == [] {
      assert s == a + [c];
    } else {
      var rest := b[..|b| - 1];
      assert s[..|s| - 1] == a + [c] + rest;
      assert s[|s| - 1] == b[|b| - 1];
      LastIndexOfLast(a, c, rest);
    }
  }

  /** The extension of a plain `stem.ext` name is ".ext". */
  lemma ExtnameOfName(stem: string, ext: string)
    requires stem != [] && Lacks(stem, '/')
    requires Lacks(ext, '.') && Lacks(ext, '/')
    requires stem + "." + ext != ".."
    ensures Extname(stem + "." + ext) == "." + ext
  {
    var p := stem + "." + ext;
    assert p == stem + ['.'] + ext;
    assert p[|p| - 1] != '/' by {
      if ext == [] { assert p[|p| - 1] == '.'; } else { assert p[|p| - 1] == ext[|ext| - 1]; }
    }
    assert Lacks(p, '/') by {
      forall i | 0 <= i < |p| ensures p[i] != '/' {
        if i < |stem| { assert p[i] == stem[i]; } else if i > |stem| { assert p[i] == ext[i - |stem| - 1]; }
      }
    }
    LastComponentOfPlain(p);
    assert BaseName(p) == p;
    LastIndexOfLast(stem, '.', ext);
    assert p[|stem|..] == "." + ext;
  }

  /** A character that lower-casing neither produces from nor turns into another. */
  predicate CaseFree(c: char)
  {
    !('a' <= c <= 'z') && !('A' <= c <= 'Z')
  }

  lemma LastIndexLower(s: string, c: char)
    requires CaseFree(c)
    ensures LastIndexOf(ToLower(s), c) == LastIndexOf(s, c)
  {
  }

  lemma {:induction false} LastComponentLower(q: string)
    ensures LastComponent(ToLower(q)) == ToLower(LastComponent(q))
  {
    if q != [] {
      var n := |q| - 1;
      assert ToLower(q)[n] == LowerChar(q[n]);
      if q[n] != '/' {
        assert ToLower(q)[..n] == ToLower(q[..n]);
        LastComponentLower(q[..n]);
        var b := LastComponent(q[..n]);
        assert ToLower(b + [q[n]]) == ToLower(b) + [LowerChar(q[n])];
      }
    }
  }

  lemma {:induction false} BaseNameLower(p: string)
    ensures BaseName(ToLower(p)) == ToLower(BaseName(p))
  {
    if p != [] && p[|p| - 1] == '/' {
      assert ToLower(p)[..|p| - 1] == ToLower(p[..|p| - 1]);
      BaseNameLower(p[..|p| - 1]);
    } else {
      LastComponentLower(p);
    }
  }

  lemma SuffixLower(s: string, k: nat)
    requires k <= |s|
    ensures ToLower(s)[k..] == ToLower(s[k..])
  {
  }

  lemma {:induction false} LastComponentOfPlain(q: string)
    requires Lacks(q, '/')
    ensures LastComponent(q) == q
  {
    if q != [] {
      LastComponentOfPlain(q[..|q| - 1]);
    }
  }

  /** Taking the extension commutes with lower-casing. */
  lemma ExtnameLower(p: string)
    ensures Extname(ToLower(p)) == ToLower(Extname(p))
  {
    BaseNameLower(p);
    var b := BaseName(p);
    LastIndexLower(b, '.');
    var dot := LastIndexOf(b, '.');
    assert ToLower(b) == ".." <==> b == ".." by {
      if |b| == 2 {
        assert ToLower(b)[0] == LowerChar(b[0]) && ToLower(b)[1] == LowerChar(b[1]);
      }
    }
    if dot > 0 {
      SuffixLower(b, dot);
    }
  }

  lemma LowerIdempotent(s: string)
    ensures ToLower(ToLower(s)) == ToLower(s)
  {
  }

  /** What `fileFilter` passes to its callback: acceptance, or the rejection error. */
  datatype Verdict = Accepted | Rejected(error: string)

  function RejectionMessage(mimetype: string): string
  {
    "Invalid file type: " + mimetype + ". Allowed types: " + Join(AllowedMimeTypes, ", ")
  }

  /** `fileFilter(req, file, cb)` for a file with the given mimetype and original name. */
  function FileFilter(mimetype: string, originalname: string): (v: Verdict)
    ensures v.Accepted? <==> mimetype in AllowedMimeTypes || ToLower(Extname(originalname)) in AllowedExtensions
    ensures v.Rejected? ==> v.error == RejectionMessage(mimetype)
  {
    if mimetype in AllowedMimeTypes || ToLower(Extname(originalname)) in AllowedExtensions then Accepted
    else Rejected(RejectionMessage(mimetype))
  }

  /** A listed mimetype is accepted whatever the file is called. */
  lemma MimetypeSuffices(mimetype: string, originalname: string)
    requires mimetype in AllowedMimeTypes
    ensures FileFilter(mimetype, originalname) == Accepted
  {
  }

  /** A listed extension in any letter case is accepted whatever the mimetype. */
  lemma ExtensionSuffices(mimetype: string, stem: string, ext: string)
    requires stem != [] && Lacks(stem, '/')
    requires Lacks(ext, '.') && Lacks(ext, '/')
    requires stem + "." + ext != ".."
    requires ToLower("." + ext) in AllowedExtensions
    ensures FileFilter(mimetype, stem + "." + ext) == Accepted
  {
    ExtnameOfName(stem, ext);
  }

  /** "REPORT.PDF" passes with an unlisted mimetype. */
  lemma UpperCaseExtensionAccepted()
    ensures FileFilter("application/octet-stream", "REPORT.PDF") == Accepted
  {
    var lower := ToLower(".PDF");
    assert lower[0] == '.' && lower[1] == 'p' && lower[2] == 'd' && lower[3] == 'f';
    assert lower == AllowedExtensions[0];
    assert "." + "PDF" == ".PDF";
    assert ToLower("." + "PDF") in AllowedExtensions;
    assert "REPORT" + "." + "PDF" == "REPORT.PDF";
    ExtensionSuffices("application/octet-stream", "REPORT", "PDF");
  }

  /** A file's verdict does not change when its name is lower-cased. */
  lemma FilterIgnoresNameCase(mimetype: string, originalname: string)
    ensures FileFilter(mimetype, ToLower(originalname)) == FileFilter(mimetype, originalname)
  {
    ExtnameLower(originalname);
    LowerIdempotent(Extname(originalname));
  }
}

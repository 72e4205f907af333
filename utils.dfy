/**
 * src/utils.py: sanitize_filename.  The logger and the timestamp helpers are
 * I/O and the clock, and are not part of this model.
 */
module Utils {
  import opened Text

  /** The characters sanitize_filename keeps: c.isalnum() or c in ('-', '_'). */
  predicate Allowed(c: char) {
    IsAlnum(c) || c == '-' || c == '_'
  }

  /** The generator expression of line 32, joined. */
  function KeepAllowed(s: string): (r: string)
    ensures |r| <= |s|
    ensures forall i :: 0 <= i < |r| ==> Allowed(r[i])
    decreases |s|
  {
    if s == [] then [] else (if Allowed(s[0]) then [s[0]] else []) + KeepAllowed(s[1..])
  }

  /** a can be obtained from b by deleting characters. */
  predicate IsSubsequence(a: string, b: string)
    decreases |b|
  {
    if a == [] then true
    else if b == [] then false
    else (a[0] == b[0] && IsSubsequence(a[1..], b[1..])) || IsSubsequence(a, b[1..])
  }

  /** sanitize_filename (lines 30-32).  The trailing rstrip() never removes
      anything: whitespace is not an allowed character. */
  function SanitizeFilename(filename: string): (r: string)
    ensures r == KeepAllowed(filename)
    ensures |r| <= |filename|
    ensures forall i :: 0 <= i < |r| ==> Allowed(r[i])
  {
    var kept := KeepAllowed(filename);
    assert kept == [] || !IsPySpace(kept[|kept| - 1]);
    RStrip(kept)
  }

  /** The result keeps the allowed characters in their original order. */
  lemma {:induction false} SanitizedIsSubsequence(s: string)
    ensures IsSubsequence(KeepAllowed(s), s)
    decreases |s|
  {
    if s != [] {
      SanitizedIsSubsequence(s[1..]);
      var rest := KeepAllowed(s[1..]);
      if Allowed(s[0]) {
        assert KeepAllowed(s) == [s[0]] + rest;
        assert ([s[0]] + rest)[1..] == rest;
      } else {
        assert KeepAllowed(s) == rest;
      }
    }
  }

  /** Filtering distributes over concatenation, so the order of what survives is the input order. */
  lemma {:induction false} KeepAllowedAppend(a: string, b: string)
    ensures KeepAllowed(a + b) == KeepAllowed(a) + KeepAllowed(b)
    decreases |a|
  {
    if a != [] {
      var head := if Allowed(a[0]) then [a[0]] else [];
      assert (a + b)[0] == a[0] && (a + b)[1..] == a[1..] + b;
      KeepAllowedAppend(a[1..], b);
      calc {
        KeepAllowed(a + b);
        head + KeepAllowed(a[1..] + b);
        head + (KeepAllowed(a[1..]) + KeepAllowed(b));
        (head + KeepAllowed(a[1..])) + KeepAllowed(b);
        KeepAllowed(a) + KeepAllowed(b);
      }
    } else {
      assert a + b == b;
    }
  }

  /** A string of allowed characters is its own sanitized form. */
  lemma {:induction false} SanitizeKeepsAllowed(s: string)
    requires forall i :: 0 <= i < |s| ==> Allowed(s[i])
    ensures SanitizeFilename(s) == s
    decreases |s|
  {
    if s != [] {
      SanitizeKeepsAllowed(s[1..]);
    }
  }

  /** Sanitizing twice is sanitizing once. */
  lemma SanitizeIdempotent(s: string)
    ensures SanitizeFilename(SanitizeFilename(s)) == SanitizeFilename(s)
  {
    SanitizeKeepsAllowed(SanitizeFilename(s));
  }

  /** The length is preserved exactly when nothing had to be removed. */
  lemma {:induction false} SanitizeLengthExact(s: string)
    ensures |SanitizeFilename(s)| == |s| <==> forall i :: 0 <= i < |s| ==> Allowed(s[i])
    decreases |s|
  {
    if s != [] {
      SanitizeLengthExact(s[1..]);
      assert forall i :: 1 <= i < |s| ==> s[i] == s[1..][i - 1];
      if forall i :: 1 <= i < |s| ==> Allowed(s[i]) {
        assert forall i :: 0 <= i < |s[1..]| ==> Allowed(s[1..][i]);
      }
    }
  }

  /**
   * A file name "stem.ext" of allowed characters loses its dot: the script names
   * that save_script builds (web_automation_tool.py:718, as test_case.py:33 uses
   * it) come out as "stemext".
   */
  lemma ExtensionLosesDot(stem: string, ext: string)
    requires forall i :: 0 <= i < |stem| ==> Allowed(stem[i])
    requires forall i :: 0 <= i < |ext| ==> Allowed(ext[i])
    ensures SanitizeFilename(stem + "." + ext) == stem + ext
  {
    KeepAllowedAppend(stem + ".", ext);
    DotIsDropped(stem);
    SanitizeKeepsAllowed(stem);
    SanitizeKeepsAllowed(ext);
  }

  lemma DotIsDropped(stem: string)
    ensures KeepAllowed(stem + ".") == KeepAllowed(stem)
  {
    KeepAllowedAppend(stem, ".");
    assert KeepAllowed(".") == [] by {
      assert !Allowed('.');
      assert "."[1..] == [];
    }
    assert KeepAllowed(stem) + [] == KeepAllowed(stem);
  }
}

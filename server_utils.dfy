/**
 * The server's two string helpers (apps/ilix-server/src/utils/mod.rs): the
 * blank check every handler applies to its identifiers, and the cleanup of
 * an identifier printed in MongoDB's `ObjectId("…")` form.
 */
module ServerUtils {
  import opened Strings
  import ClientUtils

  /** `is_str_empty`: the string trims (with Rust's white space) to nothing. */
  predicate IsStrEmpty(s: string) {
    |TrimBy(s, IsRustWhitespace)| == 0
  }

  /** A string is blank for the server exactly when all of it is Rust white space. */
  lemma StrEmptyIsAllWhitespace(s: string)
    ensures IsStrEmpty(s) <==> forall i :: 0 <= i < |s| ==> IsRustWhitespace(s[i])
  {
    TrimByEmpty(s, IsRustWhitespace);
  }

  /**
   * The client and the server disagree on blank strings: a lone NEL is blank to
   * the server only, a lone ZWNBSP to the client only.
   */
  lemma BlankChecksDiffer()
    ensures IsStrEmpty("\U{85}") && !ClientUtils.IsEmptyString("\U{85}")
    ensures !IsStrEmpty("\U{FEFF}") && ClientUtils.IsEmptyString("\U{FEFF}")
  {
    StrEmptyIsAllWhitespace("\U{85}");
    StrEmptyIsAllWhitespace("\U{FEFF}");
    ClientUtils.EmptyStringIsAllWhitespace("\U{85}");
    ClientUtils.EmptyStringIsAllWhitespace("\U{FEFF}");
  }

  /** On strings without NEL and ZWNBSP the two blank checks agree. */
  lemma BlankChecksAgree(s: string)
    requires forall i :: 0 <= i < |s| ==> s[i] as int != 0x85 && s[i] as int != 0xFEFF
    ensures IsStrEmpty(s) <==> ClientUtils.IsEmptyString(s)
  {
    StrEmptyIsAllWhitespace(s);
    ClientUtils.EmptyStringIsAllWhitespace(s);
    forall i | 0 <= i < |s|
      ensures IsRustWhitespace(s[i]) <==> IsJsWhitespace(s[i])
    {
      WhitespaceClassesDiffer(s[i]);
    }
  }

  const OBJECT_ID_PREFIX := "ObjectId(\""
  const OBJECT_ID_SUFFIX := "\")"

  /** `trim_object_id`: every leading `ObjectId("` and then every trailing `")` stripped. */
  function TrimObjectId(s: string): (r: string)
    ensures !StartsWith(r, OBJECT_ID_PREFIX) && !EndsWith(r, OBJECT_ID_SUFFIX)
    ensures |r| <= |s|
  {
    var t := TrimStartMatches(s, OBJECT_ID_PREFIX);
    TrimStartMatchesStops(s, OBJECT_ID_PREFIX);
    TrimEndMatchesStops(t, OBJECT_ID_SUFFIX);
    TrimEndMatchesIsPrefix(t, OBJECT_ID_SUFFIX);
    var r := TrimEndMatches(t, OBJECT_ID_SUFFIX);
    PrefixKeepsNoStart(t, r, OBJECT_ID_PREFIX);
    r
  }

  lemma {:induction false} TrimStartMatchesStops(s: string, p: string)
    requires |p| > 0
    ensures !StartsWith(TrimStartMatches(s, p), p) && |TrimStartMatches(s, p)| <= |s|
    decreases |s|
  {
    if StartsWith(s, p) {
      TrimStartMatchesStops(s[|p|..], p);
    }
  }

  lemma {:induction false} TrimEndMatchesStops(s: string, p: string)
    requires |p| > 0
    ensures !EndsWith(TrimEndMatches(s, p), p)
    decreases |s|
  {
    if EndsWith(s, p) {
      TrimEndMatchesStops(s[..|s| - |p|], p);
    }
  }

  lemma {:induction false} TrimEndMatchesIsPrefix(s: string, p: string)
    ensures |TrimEndMatches(s, p)| <= |s| && TrimEndMatches(s, p) == s[..|TrimEndMatches(s, p)|]
    decreases |s|
  {
    if |p| > 0 && EndsWith(s, p) {
      TrimEndMatchesIsPrefix(s[..|s| - |p|], p);
    }
  }

  /** A prefix of a string that does not start with `p` does not start with it either. */
  lemma PrefixKeepsNoStart(t: string, r: string, p: string)
    requires |r| <= |t| && r == t[..|r|] && !StartsWith(t, p)
    ensures !StartsWith(r, p)
  {
  }

  /** An identifier that is not wrapped at either end is returned as it is. */
  lemma TrimObjectIdPlain(s: string)
    requires !StartsWith(s, OBJECT_ID_PREFIX) && !EndsWith(s, OBJECT_ID_SUFFIX)
    ensures TrimObjectId(s) == s
  {
  }

  /** Trimming twice is trimming once. */
  lemma TrimObjectIdIdempotent(s: string)
    ensures TrimObjectId(TrimObjectId(s)) == TrimObjectId(s)
  {
    TrimObjectIdPlain(TrimObjectId(s));
  }

  /** The printed form of a hexadecimal identifier, as MongoDB writes one, gives the bare identifier back. */
  lemma TrimObjectIdUnwraps(id: string)
    requires forall i :: 0 <= i < |id| ==> IsDigit(id[i], 16)
    ensures TrimObjectId(OBJECT_ID_PREFIX + id + OBJECT_ID_SUFFIX) == id
  {
    var s := OBJECT_ID_PREFIX + id + OBJECT_ID_SUFFIX;
    assert StartsWith(s, OBJECT_ID_PREFIX) by { assert s[..|OBJECT_ID_PREFIX|] == OBJECT_ID_PREFIX; }
    var u := id + OBJECT_ID_SUFFIX;
    assert s[|OBJECT_ID_PREFIX|..] == u;
    assert !StartsWith(u, OBJECT_ID_PREFIX) by {
      if |u| >= |OBJECT_ID_PREFIX| {
        assert u[0] == id[0] && u[..|OBJECT_ID_PREFIX|][0] == u[0];
      }
    }
    assert TrimStartMatches(s, OBJECT_ID_PREFIX) == u;
    assert EndsWith(u, OBJECT_ID_SUFFIX) by { assert u[|u| - |OBJECT_ID_SUFFIX|..] == OBJECT_ID_SUFFIX; }
    assert u[..|u| - |OBJECT_ID_SUFFIX|] == id;
    assert !EndsWith(id, OBJECT_ID_SUFFIX) by {
      if |id| >= |OBJECT_ID_SUFFIX| {
        assert id[|id| - |OBJECT_ID_SUFFIX|..][1] == id[|id| - 1];
      }
    }
    assert TrimEndMatches(u, OBJECT_ID_SUFFIX) == TrimEndMatches(id, OBJECT_ID_SUFFIX) == id;
  }

  /** The stripping repeats: a wrapped `ObjectId(` loses more than its wrapper. */
  lemma TrimObjectIdRepeats()
    ensures TrimObjectId("ObjectId(\"ObjectId(\")") == ")"
  {
    var s := "ObjectId(\"ObjectId(\")";
    assert StartsWith(s, OBJECT_ID_PREFIX) && s[|OBJECT_ID_PREFIX|..] == "ObjectId(\")";
    assert StartsWith("ObjectId(\")", OBJECT_ID_PREFIX) && "ObjectId(\")"[|OBJECT_ID_PREFIX|..] == ")";
    assert TrimStartMatches(s, OBJECT_ID_PREFIX) == ")";
  }
}

/**
 * The Node module-resolution hook used while building: a specifier that
 * looks like a Windows drive path is turned into a `file:` URL before it is
 * handed to the next resolver; every other specifier is handed on as it is.
 * Node's `pathToFileURL(...).href` is the uninterpreted parameter `fileHref`.
 */
module EsmLoader {

  /** The arguments passed to `nextResolve`. */
  datatype NextCall<C> = NextCall(specifier: string, context: C)

  predicate IsAsciiLetter(c: char) {
    'A' <= c <= 'Z' || 'a' <= c <= 'z'
  }

  /** `/^[A-Za-z]:/` */
  predicate DrivePrefix(s: string) {
    |s| >= 2 && IsAsciiLetter(s[0]) && s[1] == ':'
  }

  /** `/^[A-Za-z]:[\\\/]/` */
  predicate DrivePath(s: string) {
    DrivePrefix(s) && |s| >= 3 && (s[2] == '\\' || s[2] == '/')
  }

  /** `s.includes(part)` */
  predicate Includes(s: string, part: string)
    decreases |s|
  {
    |part| <= |s| && (s[..|part|] == part || Includes(s[1..], part))
  }

  /** The classification: a specifier that either of the two tests accepts is converted. */
  predicate Converts(specifier: string) {
    DrivePath(specifier) || (DrivePrefix(specifier) && !Includes(specifier, "://"))
  }

  /** `resolve(specifier, context, nextResolve)`: the call it makes to `nextResolve`. */
  function Resolve<C>(specifier: string, context: C, fileHref: string -> string): (r: NextCall<C>)
    ensures r.context == context
    ensures Converts(specifier) ==> r.specifier == fileHref(specifier)
    ensures !Converts(specifier) ==> r.specifier == specifier
    ensures !DrivePrefix(specifier) ==> r.specifier == specifier
    ensures DrivePrefix(specifier) && (DrivePath(specifier) || !Includes(specifier, "://")) ==>
              r.specifier == fileHref(specifier)
    ensures DrivePrefix(specifier) && !DrivePath(specifier) && Includes(specifier, "://") ==>
              r.specifier == specifier
  {
    if DrivePath(specifier) then NextCall(fileHref(specifier), context)
    else if DrivePrefix(specifier) && !Includes(specifier, "://") then NextCall(fileHref(specifier), context)
    else NextCall(specifier, context)
  }

  /**
   * A specifier whose second character is not a colon (a multi-letter scheme
   * such as `node:fs` or `http://x`, or a bare or relative name) is never converted.
   */
  lemma NoColonSecondPassesThrough<C>(specifier: string, context: C, fileHref: string -> string)
    requires |specifier| < 2 || specifier[1] != ':'
    ensures !Converts(specifier)
    ensures Resolve(specifier, context, fileHref) == NextCall(specifier, context)
  {
  }

  /** The drive test runs first, so `C://x` is converted although it contains `://`. */
  lemma DriveTestWins<C>(context: C, fileHref: string -> string)
    ensures Includes("C://x", "://")
    ensures Resolve("C://x", context, fileHref) == NextCall(fileHref("C://x"), context)
  {
    assert "C://x"[1..] == "://x";
    assert "://x"[..3] == "://";
  }

  /** A drive letter and colon followed by a relative path is converted by the second test. */
  lemma DriveRelativeConverted<C>(context: C, fileHref: string -> string)
    ensures !DrivePath("c:a")
    ensures Resolve("c:a", context, fileHref) == NextCall(fileHref("c:a"), context)
  {
    assert "c:a"[..3][0] == 'c' != "://"[0];
    assert "c:a"[1..] == ":a";
  }

  /** A drive letter and colon with `://` later on is handed on unchanged. */
  lemma SchemeAfterDrivePassesThrough<C>(context: C, fileHref: string -> string)
    ensures DrivePrefix("C:x://y") && !DrivePath("C:x://y")
    ensures Resolve("C:x://y", context, fileHref) == NextCall("C:x://y", context)
  {
    assert "C:x://y"[1..] == ":x://y";
    assert ":x://y"[1..] == "x://y";
    assert "x://y"[1..] == "://y";
    assert "://y"[..3] == "://";
  }

  /** Multi-letter schemes are never converted. */
  lemma SchemesPassThrough<C>(context: C, fileHref: string -> string)
    ensures Resolve("node:fs", context, fileHref) == NextCall("node:fs", context)
    ensures Resolve("http://x", context, fileHref) == NextCall("http://x", context)
  {
    NoColonSecondPassesThrough("node:fs", context, fileHref);
    NoColonSecondPassesThrough("http://x", context, fileHref);
  }
}

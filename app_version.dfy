/** Tr1ppy.Configuration/AppVersion.cs: a version string taken apart into
    major, minor, patch and tag, and put back together. */
module AppVersions {

  predicate IsSeparator(c: char) {
    c == '-' || c == '.'
  }

  predicate NoSeparator(s: string) {
    forall i :: 0 <= i < |s| ==> !IsSeparator(s[i])
  }

  /** `Split(['-', '.'], StringSplitOptions.RemoveEmptyEntries)`. */
  function Split(s: string): (parts: seq<string>)
    ensures forall i :: 0 <= i < |parts| ==> parts[i] != [] && NoSeparator(parts[i])
  {
    SplitFrom(s, "")
  }

  /** Splitting the rest of the input while `current` holds the piece read so far. */
  function SplitFrom(s: string, current: string): (parts: seq<string>)
    requires NoSeparator(current)
    ensures forall i :: 0 <= i < |parts| ==> parts[i] != [] && NoSeparator(parts[i])
    decreases |s|
  {
    var done: seq<string> := if current == [] then [] else [current];
    if s == [] then done
    else if IsSeparator(s[0]) then done + SplitFrom(s[1..], "")
    else SplitFrom(s[1..], current + [s[0]])
  }

  lemma {:induction false} SplitFromWord(word: string, rest: string, current: string)
    requires NoSeparator(current) && NoSeparator(word)
    ensures SplitFrom(word + rest, current) == SplitFrom(rest, current + word)
    decreases |word|
  {
    if word == [] {
      assert word + rest == rest && current + word == current;
    } else {
      assert (word + rest)[0] == word[0] && (word + rest)[1..] == word[1..] + rest;
      assert current + word == (current + [word[0]]) + word[1..];
      SplitFromWord(word[1..], rest, current + [word[0]]);
    }
  }

  /** A non-empty piece without separators, then a separator, is one part. */
  lemma SplitFromPiece(word: string, sep: char, rest: string)
    requires word != [] && NoSeparator(word) && IsSeparator(sep)
    ensures SplitFrom(word + [sep] + rest, "") == [word] + SplitFrom(rest, "")
  {
    SplitFromWord(word, [sep] + rest, "");
    assert word + [sep] + rest == word + ([sep] + rest);
    assert "" + word == word;
    assert ([sep] + rest)[1..] == rest;
  }

  /** The field a part index fills, or "" when there are too few parts. */
  function FieldAt(parts: seq<string>, i: nat): string {
    if i < |parts| then parts[i] else ""
  }

  /** `ToString()`. */
  function Format(major: string, minor: string, patch: string, tag: string): string {
    major + "." + minor + "." + patch + "-" + tag
  }

  /** Parsing `a.b.c-d` with non-empty, separator-free pieces and printing the
      fields back gives the original string. */
  lemma RoundTrip(a: string, b: string, c: string, d: string)
    requires a != [] && b != [] && c != [] && d != []
    requires NoSeparator(a) && NoSeparator(b) && NoSeparator(c) && NoSeparator(d)
    ensures var parts := Split(Format(a, b, c, d));
      Format(FieldAt(parts, 0), FieldAt(parts, 1), FieldAt(parts, 2), FieldAt(parts, 3)) == Format(a, b, c, d)
  {
    var s := Format(a, b, c, d);
    assert s == a + ['.'] + (b + ['.'] + (c + ['-'] + d));
    SplitFromPiece(a, '.', b + ['.'] + (c + ['-'] + d));
    SplitFromPiece(b, '.', c + ['-'] + d);
    SplitFromPiece(c, '-', d);
    SplitFromWord(d, [], "");
    assert d + [] == d && "" + d == d;
    assert Split(s) == [a, b, c, d];
  }

  /** Only the first four parts are read: appending more pieces changes no field. */
  lemma ExtraPiecesIgnored(a: string, b: string, c: string, d: string, extra: string)
    requires a != [] && b != [] && c != [] && d != []
    requires NoSeparator(a) && NoSeparator(b) && NoSeparator(c) && NoSeparator(d)
    ensures var parts := Split(Format(a, b, c, d) + "." + extra);
      FieldAt(parts, 0) == a && FieldAt(parts, 1) == b && FieldAt(parts, 2) == c && FieldAt(parts, 3) == d
  {
    var s := Format(a, b, c, d) + "." + extra;
    assert s == a + ['.'] + (b + ['.'] + (c + ['-'] + (d + ['.'] + extra)));
    SplitFromPiece(a, '.', b + ['.'] + (c + ['-'] + (d + ['.'] + extra)));
    SplitFromPiece(b, '.', c + ['-'] + (d + ['.'] + extra));
    SplitFromPiece(c, '-', d + ['.'] + extra);
    SplitFromPiece(d, '.', extra);
  }

  class AppVersion {
    var raw: string
    var major: string
    var minor: string
    var patch: string
    var tag: string

    constructor ()
      ensures raw == "" && major == "" && minor == "" && patch == "" && tag == ""
    {
      raw, major, minor, patch, tag := "", "", "", "", "";
    }

    /** `FromString`: the first four non-empty pieces fill major, minor, patch
        and tag; a missing piece leaves its field empty. */
    static method FromString(versionString: string) returns (version: AppVersion)
      ensures fresh(version) && version.raw == versionString
      ensures var parts := Split(versionString);
        && version.major == FieldAt(parts, 0) && version.minor == FieldAt(parts, 1)
        && version.patch == FieldAt(parts, 2) && version.tag == FieldAt(parts, 3)
    {
      version := new AppVersion();
      version.raw := versionString;
      var versionParts := Split(versionString);
      if |versionParts| > 0 {
        version.major := versionParts[0];
      }
      if |versionParts| > 1 {
        version.minor := versionParts[1];
      }
      if |versionParts| > 2 {
        version.patch := versionParts[2];
      }
      if |versionParts| > 3 {
        version.tag := versionParts[3];
      }
    }

    /** `CopyTo`: every field but the tag. */
    method CopyTo(other: AppVersion)
      modifies other
      ensures other.raw == old(raw) && other.major == old(major)
      ensures other.minor == old(minor) && other.patch == old(patch)
      ensures other.tag == old(other.tag)
      ensures other != this ==> unchanged(this)
    {
      other.raw := raw;
      other.major := major;
      other.minor := minor;
      other.patch := patch;
    }

    /** `ToString()`. */
    function ToString(): (s: string)
      reads this
      ensures |s| == |major| + |minor| + |patch| + |tag| + 3
    {
      Format(major, minor, patch, tag)
    }
  }
}

/** Tr1ppy.Autofac/AssemblyLoader.cs and its line-for-line twin
    Autoregistration/Tr1ppy.Autoregistration/Helpers/AssemblyLoader.cs with
    AssemblySearchFilterOptions.cs: keep the assemblies whose names match
    the included and excluded domain substrings, and the option lists that
    hold those domains. Both copies are modelled by the one definition here.
    Assemblies are of any type `A`, with their (possibly null) names given
    by `nameOf`. */
module AssemblyLoaders {
  import opened Wrappers
  import HashSets

  /** Ordinal `string.Contains(domain)`; the empty string is in every name. */
  predicate Contains(name: string, domain: string) {
    exists i :: 0 <= i <= |name| && OccursAt(name, domain, i)
  }

  predicate OccursAt(name: string, domain: string, i: int) {
    0 <= i && i + |domain| <= |name| && name[i..i + |domain|] == domain
  }

  /** `assembly.GetName().Name ?? string.Empty`. */
  function NameOrEmpty(name: Option<string>): string {
    if name.Some? then name.value else ""
  }

  predicate MatchesAny(name: string, domains: seq<string>) {
    exists d :: d in domains && Contains(name, d)
  }

  /** The `Where` predicate: included (when any inclusion is given) and not excluded. */
  predicate Kept(name: string, included: seq<string>, excluded: seq<string>) {
    (|included| == 0 || MatchesAny(name, included)) && !MatchesAny(name, excluded)
  }

  /** LINQ `Where`: the elements satisfying `keep`, in their original order. */
  function Where<A>(s: seq<A>, keep: A -> bool): (r: seq<A>)
    ensures |r| <= |s|
    ensures forall k :: 0 <= k < |r| ==> r[k] in s && keep(r[k])
    ensures forall i :: 0 <= i < |s| && keep(s[i]) ==> s[i] in r
  {
    if s == [] then [] else Where(s[..|s| - 1], keep) + (if keep(s[|s| - 1]) then [s[|s| - 1]] else [])
  }

  /** The assemblies kept by the include and exclude lists. */
  function Filter<A>(assemblies: seq<A>, nameOf: A -> Option<string>, included: seq<string>, excluded: seq<string>)
    : (r: seq<A>)
    ensures forall k :: 0 <= k < |r| ==> r[k] in assemblies && Kept(NameOrEmpty(nameOf(r[k])), included, excluded)
    ensures forall i :: (0 <= i < |assemblies| && Kept(NameOrEmpty(nameOf(assemblies[i])), included, excluded)
      ==> assemblies[i] in r)
  {
    Where(assemblies, a => Kept(NameOrEmpty(nameOf(a)), included, excluded))
  }

  /** `FilterAssemblies`: null options keep the list as it is. */
  function FilterAssemblies<A>(assemblies: seq<A>, nameOf: A -> Option<string>, options: AssemblyDomainFilterOptions?)
    : (r: seq<A>)
    reads options
    ensures options == null ==> r == assemblies
    ensures options != null ==> r == Filter(assemblies, nameOf, options.includedDomains, options.excludedDomains)
  {
    if options == null then assemblies
    else Filter(assemblies, nameOf, options.includedDomains, options.excludedDomains)
  }

  /** The kept elements sit at strictly increasing positions of the input:
      the filter keeps order and multiplicity. */
  lemma {:induction false} WhereIsSubsequence<A>(s: seq<A>, keep: A -> bool) returns (positions: seq<nat>)
    ensures var r := Where(s, keep);
      && |positions| == |r|
      && (forall k :: 0 <= k < |positions| ==> positions[k] < |s| && r[k] == s[positions[k]])
      && (forall k, l :: 0 <= k < l < |positions| ==> positions[k] < positions[l])
  {
    if s != [] {
      var n := |s| - 1;
      positions := WhereIsSubsequence(s[..n], keep);
      if keep(s[n]) {
        positions := positions + [n];
      }
    } else {
      positions := [];
    }
  }

  /** An empty excluded domain rejects every assembly; an empty included
      domain admits every assembly that is not excluded. */
  lemma EmptyDomainMatchesAll(name: string, included: seq<string>, excluded: seq<string>)
    ensures "" in excluded ==> !Kept(name, included, excluded)
    ensures "" in included ==> (Kept(name, included, excluded) <==> !MatchesAny(name, excluded))
  {
    assert OccursAt(name, "", 0);
  }

  /** `char.IsWhiteSpace`: the Unicode white-space characters. */
  predicate IsWhiteSpace(c: char) {
    ('\U{9}' <= c <= '\U{D}') || c == ' ' || c == '\U{85}' || c == '\U{A0}' || c == '\U{1680}'
    || ('\U{2000}' <= c <= '\U{200A}') || c == '\U{2028}' || c == '\U{2029}' || c == '\U{202F}'
    || c == '\U{205F}' || c == '\U{3000}'
  }

  /** `string.IsNullOrWhiteSpace`. */
  predicate IsNullOrWhiteSpace(s: Option<string>) {
    s.None? || forall i :: 0 <= i < |s.value| ==> IsWhiteSpace(s.value[i])
  }

  /** Where the leading white space of `s`, scanned from `i`, ends. */
  function TrimStart(s: string, i: nat): (a: nat)
    requires i <= |s|
    ensures i <= a <= |s|
    ensures forall k :: i <= k < a ==> IsWhiteSpace(s[k])
    ensures a < |s| ==> !IsWhiteSpace(s[a])
    decreases |s| - i
  {
    if i == |s| || !IsWhiteSpace(s[i]) then i else TrimStart(s, i + 1)
  }

  /** Where the trailing white space of `s[..j]` begins, not going below `a`. */
  function TrimEnd(s: string, a: nat, j: nat): (b: nat)
    requires a <= j <= |s|
    ensures a <= b <= j
    ensures forall k :: b <= k < j ==> IsWhiteSpace(s[k])
    ensures b > a ==> !IsWhiteSpace(s[b - 1])
    decreases j
  {
    if j == a || !IsWhiteSpace(s[j - 1]) then j else TrimEnd(s, a, j - 1)
  }

  /** `string.Trim()`: the part between leading and trailing white space. */
  function Trim(s: string): (r: string)
    ensures exists i, j :: 0 <= i <= j <= |s| && r == s[i..j]
    ensures r != [] ==> !IsWhiteSpace(r[0]) && !IsWhiteSpace(r[|r| - 1])
    ensures r == [] ==> forall i :: 0 <= i < |s| ==> IsWhiteSpace(s[i])
  {
    var a := TrimStart(s, 0);
    var b := TrimEnd(s, a, |s|);
    s[a..b]
  }

  predicate Free(s: string, sep: char) {
    forall i :: 0 <= i < |s| ==> s[i] != sep
  }

  /** `Split(sep)` with no options: the pieces between separators. */
  function SplitOn(s: string, sep: char): (pieces: seq<string>)
    ensures |pieces| >= 1
    ensures forall k :: 0 <= k < |pieces| ==> Free(pieces[k], sep)
  {
    if s == [] then [""]
    else
      var p := SplitOn(s[..|s| - 1], sep);
      var c := s[|s| - 1];
      if c == sep then p + [""] else p[..|p| - 1] + [p[|p| - 1] + [c]]
  }

  /** The pieces glued back with the separator. */
  function JoinWith(pieces: seq<string>, sep: char): string
    requires |pieces| >= 1
  {
    if |pieces| == 1 then pieces[0] else JoinWith(pieces[..|pieces| - 1], sep) + [sep] + pieces[|pieces| - 1]
  }

  /** Splitting loses nothing: joining the pieces gives the input back. */
  lemma {:induction false} JoinSplitOn(s: string, sep: char)
    ensures JoinWith(SplitOn(s, sep), sep) == s
  {
    if s != [] {
      var init := s[..|s| - 1];
      var p := SplitOn(init, sep);
      JoinSplitOn(init, sep);
      var c := s[|s| - 1];
      if c != sep {
        var q := p[..|p| - 1] + [p[|p| - 1] + [c]];
        if |p| == 1 {
          assert JoinWith(q, sep) == p[0] + [c];
        } else {
          assert q[..|q| - 1] == p[..|p| - 1];
          assert JoinWith(q, sep) == JoinWith(p[..|p| - 1], sep) + [sep] + (p[|p| - 1] + [c]);
        }
      } else {
        assert (p + [""])[..|p|] == p;
      }
      assert s == init + [c];
    }
  }

  /** Trimmed, non-empty pieces, in order. */
  function TrimmedPieces(pieces: seq<string>): (r: seq<string>)
    ensures forall k :: 0 <= k < |r| ==> r[k] != [] && r[k] == Trim(r[k])
  {
    if pieces == [] then []
    else
      var t := Trim(pieces[|pieces| - 1]);
      TrimOfTrimmed(pieces[|pieces| - 1]);
      TrimmedPieces(pieces[..|pieces| - 1]) + (if t == [] then [] else [t])
  }

  lemma TrimOfTrimmed(s: string)
    ensures Trim(Trim(s)) == Trim(s)
  {
    var t := Trim(s);
    if t != [] {
      assert t == t[0..|t|];
    }
  }

  /** The domains `IncludeCurrentDomainName` offers for an entry name:
      `Split(splitBy, RemoveEmptyEntries | TrimEntries)`, or the whole name. */
  function CurrentDomains(name: string, splitBy: Option<char>): seq<string>
  {
    if splitBy.Some? then TrimmedPieces(SplitOn(name, splitBy.value)) else [name]
  }

  /** The loop `if (!IncludedDomains.Contains(d)) IncludedDomains.Add(d)`. */
  function AddMissing(domains: seq<string>, offered: seq<string>): seq<string>
  {
    if offered == [] then domains
    else
      var before := AddMissing(domains, offered[..|offered| - 1]);
      var d := offered[|offered| - 1];
      if d in before then before else before + [d]
  }

  /** Adding the missing domains keeps the old list as a prefix, appends only
      domains it did not hold, each once, and ends up holding every offered
      domain and nothing else new. */
  lemma {:induction false} AddMissingAppendsNew(domains: seq<string>, offered: seq<string>)
    ensures var r := AddMissing(domains, offered);
      && |r| >= |domains| && r[..|domains|] == domains
      && HashSets.NoDuplicates(r[|domains|..])
      && (forall k :: |domains| <= k < |r| ==> r[k] !in domains && r[k] in offered)
      && (forall d :: d in r <==> d in domains || d in offered)
  {
    if offered != [] {
      var init := offered[..|offered| - 1];
      AddMissingAppendsNew(domains, init);
      var before := AddMissing(domains, init);
      var d := offered[|offered| - 1];
      assert forall x :: x in offered <==> x in init || x == d;
      if d !in before {
        var r := before + [d];
        assert r[..|domains|] == before[..|domains|];
        assert r[|domains|..] == before[|domains|..] + [d];
      }
    }
  }

  /** The `AssemblyDomainFilterOptions` (and `AssemblySearchFilterOptions`)
      builder: two lists of domain substrings. */
  class AssemblyDomainFilterOptions {
    var includedDomains: seq<string>
    var excludedDomains: seq<string>

    constructor ()
      ensures includedDomains == [] && excludedDomains == []
    {
      includedDomains, excludedDomains := [], [];
    }

    method IncludeDomainName(domainName: string) returns (self: AssemblyDomainFilterOptions)
      modifies this`includedDomains
      ensures self == this && includedDomains == old(includedDomains) + [domainName]
    {
      includedDomains := includedDomains + [domainName];
      self := this;
    }

    method IncludeDomainNames(domainNames: seq<string>) returns (self: AssemblyDomainFilterOptions)
      modifies this`includedDomains
      ensures self == this && includedDomains == old(includedDomains) + domainNames
    {
      includedDomains := includedDomains + domainNames;
      self := this;
    }

    method ExcludeDomainName(domainName: string) returns (self: AssemblyDomainFilterOptions)
      modifies this`excludedDomains
      ensures self == this && excludedDomains == old(excludedDomains) + [domainName]
    {
      excludedDomains := excludedDomains + [domainName];
      self := this;
    }

    method ExcludeDomainNames(domainNames: seq<string>) returns (self: AssemblyDomainFilterOptions)
      modifies this`excludedDomains
      ensures self == this && excludedDomains == old(excludedDomains) + domainNames
    {
      excludedDomains := excludedDomains + domainNames;
      self := this;
    }

    /** `IncludeCurrentDomainName`, with the entry assembly's name passed in. */
    method IncludeCurrentDomainName(entryName: Option<string>, splitBy: Option<char>)
      returns (self: AssemblyDomainFilterOptions)
      modifies this`includedDomains
      ensures self == this
      ensures IsNullOrWhiteSpace(entryName) ==> includedDomains == old(includedDomains)
      ensures !IsNullOrWhiteSpace(entryName) ==>
        includedDomains == AddMissing(old(includedDomains), CurrentDomains(entryName.value, splitBy))
    {
      self := this;
      if IsNullOrWhiteSpace(entryName) {
        return;
      }
      var domains := CurrentDomains(entryName.value, splitBy);
      IncludeMissing(domains);
    }

    /** The loop of `IncludeCurrentDomainName`: each offered domain not yet
        included is appended. */
    method IncludeMissing(domains: seq<string>)
      modifies this`includedDomains
      ensures includedDomains == AddMissing(old(includedDomains), domains)
    {
      ghost var start := includedDomains;
      for i := 0 to |domains|
        invariant includedDomains == AddMissing(start, domains[..i])
      {
        assert domains[..i + 1][..i] == domains[..i];
        if domains[i] !in includedDomains {
          includedDomains := includedDomains + [domains[i]];
        }
      }
      assert domains[..|domains|] == domains;
    }
  }
}

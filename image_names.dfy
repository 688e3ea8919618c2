/** Asset-catalogue names derived from file names and roster entries
    (utdisa/Extensions/ImageLoader.swift). */
module ImageNames {
  import opened Base
  import opened Text
  import opened Records

  function First(parts: seq<string>): Option<string> {
    if parts == [] then None else Some(parts[0])
  }

  /** `String.assetImageName`: the first '.'-component, with " - " and then
      " " replaced by "_", lowercased; the `?? self` fallback for an absent
      first component. */
  function AssetImageName(s: string): string {
    match First(Split(s, '.'))
    case Some(stem) => Lower(ReplaceAll(ReplaceAll(stem, " - ", "_"), " ", "_"))
    case None => s
  }

  lemma LowerCharFacts(c: char)
    ensures LowerChar(LowerChar(c)) == LowerChar(c)
    ensures LowerChar(c) == ' ' <==> c == ' '
    ensures LowerChar(c) == '.' <==> c == '.'
  {
  }

  lemma LowerKeepsOut(s: string, c: char)
    requires c !in s && (c == ' ' || c == '.')
    ensures c !in Lower(s) && IsLowercase(Lower(s))
  {
    forall i | 0 <= i < |s| ensures Lower(s)[i] != c && LowerChar(Lower(s)[i]) == Lower(s)[i] {
      LowerCharFacts(s[i]);
    }
  }

  /** The fallback is never taken: the name is computed from the part of the
      file name before its first '.'. */
  lemma AssetImageNameStem(s: string)
    ensures AssetImageName(s)
         == Lower(SubstituteChar(ReplaceAll(TakeUntil(s, '.'), " - ", "_"), ' ', '_'))
  {
    SplitHead(s, '.');
    ReplaceAllSingle(ReplaceAll(TakeUntil(s, '.'), " - ", "_"), ' ', '_');
  }

  /** An asset name has no '.', no ' ', and no upper-case letter. */
  lemma AssetImageNameClean(s: string)
    ensures '.' !in AssetImageName(s) && ' ' !in AssetImageName(s)
    ensures IsLowercase(AssetImageName(s))
  {
    var stem := TakeUntil(s, '.');
    var t := ReplaceAll(ReplaceAll(stem, " - ", "_"), " ", "_");
    AssetImageNameStem(s);
    SplitHead(s, '.');
    ReplaceAllExcludes(stem, " - ", "_", '.');
    ReplaceAllExcludes(ReplaceAll(stem, " - ", "_"), " ", "_", '.');
    ReplaceAllSingle(ReplaceAll(stem, " - ", "_"), ' ', '_');
    assert ' ' !in t;
    LowerKeepsOut(t, '.');
    LowerKeepsOut(t, ' ');
  }

  /** Sanitising an asset name again changes nothing. */
  lemma AssetImageNameIdempotent(s: string)
    ensures AssetImageName(AssetImageName(s)) == AssetImageName(s)
  {
    var r := AssetImageName(s);
    AssetImageNameClean(s);
    SplitWithoutSeparator(r, '.');
    ReplaceAllAbsent(r, " - ", "_");
    ReplaceAllAbsent(r, " ", "_");
    assert Lower(r) == r;
  }

  /** Spaces to underscores, then lowercase. */
  function Sanitize(s: string): string {
    Lower(ReplaceAll(s, " ", "_"))
  }

  /** `TeamMember.profileImageName`. */
  function ProfileImageName(m: TeamMember): string {
    var sanitizedPosition := Sanitize(m.position);
    var sanitizedName := Sanitize(m.name);
    sanitizedName + "_" + sanitizedPosition
  }

  /** Character by character: the name, an underscore, the position, each with
      spaces turned into underscores and lowercased; hence no space anywhere. */
  lemma ProfileImageNameChars(m: TeamMember)
    ensures var r, n, p := ProfileImageName(m), m.name, m.position;
      && |r| == |n| + 1 + |p|
      && (forall i :: 0 <= i < |n| ==> r[i] == LowerChar(if n[i] == ' ' then '_' else n[i]))
      && r[|n|] == '_'
      && (forall j :: 0 <= j < |p| ==> r[|n| + 1 + j] == LowerChar(if p[j] == ' ' then '_' else p[j]))
    ensures ' ' !in ProfileImageName(m) && IsLowercase(ProfileImageName(m))
  {
    var n, p := m.name, m.position;
    ReplaceAllSingle(n, ' ', '_');
    ReplaceAllSingle(p, ' ', '_');
    var r := ProfileImageName(m);
    assert r == Sanitize(n) + "_" + Sanitize(p);
    forall i | 0 <= i < |r| ensures r[i] != ' ' && LowerChar(r[i]) == r[i] {
      if i < |n| {
        LowerCharFacts(SubstituteChar(n, ' ', '_')[i]);
      } else if i > |n| {
        LowerCharFacts(SubstituteChar(p, ' ', '_')[i - |n| - 1]);
        assert r[i] == Sanitize(p)[i - |n| - 1];
      }
    }
  }
}

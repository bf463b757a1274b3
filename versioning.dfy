/**
 * Version compatibility (src/versioning.rs): semantic versions, their
 * precedence (Semantic Versioning 2.0.0, section 11), the caret comparator of
 * the semver crate, the two compatibility predicates of this build, the tag
 * filter and the choice of the latest compatible workload version.
 */
module Versioning {
  import opened Wrappers
  import opened Text
  import opened Orderings
  import Engine

  /** A pre-release identifier: numeric, or alphanumeric (letters, digits, hyphens, not all digits). */
  datatype Identifier = Numeric(n: nat) | Alphanumeric(s: string)

  /** A semantic version; build metadata is not part of the model. */
  datatype Version = Version(major: nat, minor: nat, patch: nat, pre: seq<Identifier>)

  // ---------------------------------------------------------------------------
  // Precedence (Semantic Versioning 2.0.0, section 11)
  // ---------------------------------------------------------------------------

  function CompareNats(a: nat, b: nat): (o: Ordering)
    ensures o == Equal <==> a == b
    ensures o == Less <==> a < b
  {
    if a < b then Less else if a > b then Greater else Equal
  }

  /** Numeric identifiers compare numerically and come before alphanumeric ones, which compare in ASCII order. */
  function CompareIdentifiers(a: Identifier, b: Identifier): Ordering
  {
    match (a, b)
    case (Numeric(m), Numeric(n)) => CompareNats(m, n)
    case (Numeric(_), Alphanumeric(_)) => Less
    case (Alphanumeric(_), Numeric(_)) => Greater
    case (Alphanumeric(s), Alphanumeric(t)) => CompareStrings(s, t)
  }

  /** Identifier by identifier; when one list is a prefix of the other, the longer one is greater. */
  function CompareIdentifierLists(a: seq<Identifier>, b: seq<Identifier>): Ordering
  {
    if a == [] then (if b == [] then Equal else Less)
    else if b == [] then Greater
    else if CompareIdentifiers(a[0], b[0]) != Equal then CompareIdentifiers(a[0], b[0])
    else CompareIdentifierLists(a[1..], b[1..])
  }

  /** A version without a pre-release has higher precedence than any with one. */
  function ComparePrereleases(a: seq<Identifier>, b: seq<Identifier>): Ordering
  {
    if a == [] && b == [] then Equal
    else if a == [] then Greater
    else if b == [] then Less
    else CompareIdentifierLists(a, b)
  }

  function CompareVersions(a: Version, b: Version): Ordering
  {
    if a.major != b.major then CompareNats(a.major, b.major)
    else if a.minor != b.minor then CompareNats(a.minor, b.minor)
    else if a.patch != b.patch then CompareNats(a.patch, b.patch)
    else ComparePrereleases(a.pre, b.pre)
  }

  predicate VersionLe(a: Version, b: Version) { CompareVersions(a, b) != Greater }

  lemma CompareIdentifiersProperties(a: Identifier, b: Identifier)
    ensures CompareIdentifiers(a, b) == Equal <==> a == b
    ensures CompareIdentifiers(b, a) == CompareIdentifiers(a, b).Reverse()
  {
    if a.Alphanumeric? && b.Alphanumeric? {
      CompareStringsEqual(a.s, b.s);
      CompareStringsAntisymmetric(a.s, b.s);
    }
  }

  lemma CompareIdentifiersTransitive(a: Identifier, b: Identifier, c: Identifier)
    requires CompareIdentifiers(a, b) == Less && CompareIdentifiers(b, c) == Less
    ensures CompareIdentifiers(a, c) == Less
  {
    if a.Alphanumeric? && b.Alphanumeric? && c.Alphanumeric? {
      CompareStringsTransitive(a.s, b.s, c.s);
    }
  }

  lemma {:induction false} CompareIdentifierListsProperties(a: seq<Identifier>, b: seq<Identifier>)
    ensures CompareIdentifierLists(a, b) == Equal <==> a == b
    ensures CompareIdentifierLists(b, a) == CompareIdentifierLists(a, b).Reverse()
  {
    if a != [] && b != [] {
      CompareIdentifiersProperties(a[0], b[0]);
      CompareIdentifierListsProperties(a[1..], b[1..]);
      assert a == [a[0]] + a[1..] && b == [b[0]] + b[1..];
    }
  }

  lemma {:induction false} CompareIdentifierListsTransitive(a: seq<Identifier>, b: seq<Identifier>, c: seq<Identifier>)
    requires CompareIdentifierLists(a, b) == Less && CompareIdentifierLists(b, c) == Less
    ensures CompareIdentifierLists(a, c) == Less
  {
    if a != [] && b != [] && c != [] {
      CompareIdentifiersProperties(a[0], b[0]);
      CompareIdentifiersProperties(b[0], c[0]);
      CompareIdentifiersProperties(a[0], c[0]);
      if CompareIdentifiers(a[0], b[0]) == Equal && CompareIdentifiers(b[0], c[0]) == Equal {
        CompareIdentifierListsTransitive(a[1..], b[1..], c[1..]);
      } else if CompareIdentifiers(a[0], b[0]) == Less && CompareIdentifiers(b[0], c[0]) == Less {
        CompareIdentifiersTransitive(a[0], b[0], c[0]);
      }
    }
  }

  lemma ComparePrereleasesProperties(a: seq<Identifier>, b: seq<Identifier>, c: seq<Identifier>)
    ensures ComparePrereleases(a, b) == Equal <==> a == b
    ensures ComparePrereleases(b, a) == ComparePrereleases(a, b).Reverse()
    ensures ComparePrereleases(a, b) == Less && ComparePrereleases(b, c) == Less ==> ComparePrereleases(a, c) == Less
  {
    CompareIdentifierListsProperties(a, b);
    if ComparePrereleases(a, b) == Less && ComparePrereleases(b, c) == Less && a != [] && c != [] {
      CompareIdentifierListsTransitive(a, b, c);
    }
  }

  /** Version precedence is a total order, and versions of equal precedence are the same version. */
  lemma VersionLeTotalOrder(a: Version, b: Version, c: Version)
    ensures VersionLe(a, a)
    ensures VersionLe(a, b) && VersionLe(b, a) ==> a == b
    ensures VersionLe(a, b) && VersionLe(b, c) ==> VersionLe(a, c)
    ensures VersionLe(a, b) || VersionLe(b, a)
  {
    ComparePrereleasesProperties(a.pre, a.pre, a.pre);
    ComparePrereleasesProperties(a.pre, b.pre, c.pre);
    ComparePrereleasesProperties(a.pre, c.pre, c.pre);
    ComparePrereleasesProperties(b.pre, c.pre, c.pre);
  }

  // ---------------------------------------------------------------------------
  // Text form: a simplified `MAJOR.MINOR.PATCH[-PRE]` grammar
  // ---------------------------------------------------------------------------

  predicate IsIdentifierChar(c: char)
  {
    IsDigit(c) || ('a' <= c <= 'z') || ('A' <= c <= 'Z') || c == '-'
  }

  /** A numeric part: digits without a leading zero (and no sign). */
  function ParseNumber(s: string): (r: Option<nat>)
    ensures r.Some? ==> AllDigits(s) && r.value == DigitsValue(s)
  {
    if s != [] && AllDigits(s) && (|s| == 1 || s[0] != '0') then Some(DigitsValue(s)) else None
  }

  function ParseIdentifier(s: string): (r: Option<Identifier>)
  {
    if s == [] || exists i :: 0 <= i < |s| && !IsIdentifierChar(s[i]) then None
    else if AllDigits(s) then (if |s| > 1 && s[0] == '0' then None else Some(Numeric(DigitsValue(s))))
    else Some(Alphanumeric(s))
  }

  function ParseIdentifiers(parts: seq<string>): (r: Option<seq<Identifier>>)
    ensures r.Some? ==> |r.value| == |parts|
  {
    if parts == [] then Some([])
    else match (ParseIdentifier(parts[0]), ParseIdentifiers(parts[1..]))
      case (Some(id), Some(ids)) => Some([id] + ids)
      case _ => None
  }

  function ParseCore(core: string, pre: seq<Identifier>): Option<Version>
  {
    var parts := Split(core, '.');
    if |parts| != 3 then None
    else match (ParseNumber(parts[0]), ParseNumber(parts[1]), ParseNumber(parts[2]))
      case (Some(major), Some(minor), Some(patch)) => Some(Version(major, minor, patch, pre))
      case _ => None
  }

  /** `Version::parse`, restricted to `MAJOR.MINOR.PATCH` with an optional `-` and dot-separated pre-release. */
  function Parse(s: string): Option<Version>
  {
    match SplitOnce(s, '-')
    case None => ParseCore(s, [])
    case Some((core, pre)) =>
      match ParseIdentifiers(Split(pre, '.'))
      case None => None
      case Some(ids) => ParseCore(core, ids)
  }

  function RenderIdentifier(id: Identifier): string
  {
    match id
    case Numeric(n) => NatToDecimal(n)
    case Alphanumeric(s) => s
  }

  function RenderIdentifiers(ids: seq<Identifier>): (parts: seq<string>)
    ensures |parts| == |ids|
    ensures forall i :: 0 <= i < |ids| ==> parts[i] == RenderIdentifier(ids[i])
  {
    if ids == [] then [] else [RenderIdentifier(ids[0])] + RenderIdentifiers(ids[1..])
  }

  function RenderCore(v: Version): string
  {
    NatToDecimal(v.major) + "." + NatToDecimal(v.minor) + "." + NatToDecimal(v.patch)
  }

  /** `Version`'s `Display` (`to_string`). */
  function Render(v: Version): string
  {
    if v.pre == [] then RenderCore(v) else RenderCore(v) + "-" + Join(RenderIdentifiers(v.pre), '.')
  }

  /** What the grammar can express: alphanumeric identifiers are non-empty identifier characters, not all digits. */
  predicate WellFormedIdentifier(id: Identifier)
  {
    id.Alphanumeric? ==>
      id.s != [] && !AllDigits(id.s) && forall i :: 0 <= i < |id.s| ==> IsIdentifierChar(id.s[i])
  }

  predicate WellFormed(v: Version)
  {
    forall i :: 0 <= i < |v.pre| ==> WellFormedIdentifier(v.pre[i])
  }

  lemma ParseNumberOfDecimal(n: nat)
    ensures ParseNumber(NatToDecimal(n)) == Some(n)
  {
    NatToDecimalValue(n);
  }

  lemma ParseIdentifierOfRender(id: Identifier)
    requires WellFormedIdentifier(id)
    ensures ParseIdentifier(RenderIdentifier(id)) == Some(id)
  {
    if id.Numeric? {
      ParseNumberOfDecimal(id.n);
    }
  }

  lemma {:induction false} ParseIdentifiersOfRender(ids: seq<Identifier>)
    requires forall i :: 0 <= i < |ids| ==> WellFormedIdentifier(ids[i])
    ensures ParseIdentifiers(RenderIdentifiers(ids)) == Some(ids)
  {
    if ids != [] {
      var parts := RenderIdentifiers(ids);
      assert parts[1..] == RenderIdentifiers(ids[1..]);
      ParseIdentifierOfRender(ids[0]);
      ParseIdentifiersOfRender(ids[1..]);
      assert [ids[0]] + ids[1..] == ids;
    }
  }

  lemma ParseCoreOfRender(v: Version, pre: seq<Identifier>)
    ensures ParseCore(RenderCore(v), pre) == Some(Version(v.major, v.minor, v.patch, pre))
  {
    var a, b, c := NatToDecimal(v.major), NatToDecimal(v.minor), NatToDecimal(v.patch);
    assert [a, b, c][1..] == [b, c] && [b, c][1..] == [c];
    assert Join([b, c], '.') == b + "." + c;
    assert RenderCore(v) == Join([a, b, c], '.');
    SplitJoin([a, b, c], '.');
    ParseNumberOfDecimal(v.major);
    ParseNumberOfDecimal(v.minor);
    ParseNumberOfDecimal(v.patch);
  }

  /** No '-' in the numeric core: digits and dots only. */
  lemma RenderCoreHasNoHyphen(v: Version)
    ensures '-' !in RenderCore(v) && '.' in RenderCore(v)
  {
    var s := RenderCore(v);
    assert forall i :: 0 <= i < |s| ==> IsDigit(s[i]) || s[i] == '.';
    assert s[|NatToDecimal(v.major)|] == '.';
  }

  /** The text form of a version parses back to the same version. */
  lemma ParseRender(v: Version)
    requires WellFormed(v)
    ensures Parse(Render(v)) == Some(v)
  {
    RenderCoreHasNoHyphen(v);
    if v.pre == [] {
      ParseCoreOfRender(v, []);
    } else {
      var parts := RenderIdentifiers(v.pre);
      forall i | 0 <= i < |parts| ensures '.' !in parts[i] {
        assert parts[i] == RenderIdentifier(v.pre[i]);
        if v.pre[i].Alphanumeric? {
          assert forall j :: 0 <= j < |parts[i]| ==> IsIdentifierChar(parts[i][j]);
        }
      }
      SplitOnceOfJoin(RenderCore(v), '-', Join(parts, '.'));
      SplitJoin(parts, '.');
      ParseIdentifiersOfRender(v.pre);
      ParseCoreOfRender(v, v.pre);
    }
  }

  lemma {:induction false} ParseIdentifiersWellFormed(parts: seq<string>)
    requires ParseIdentifiers(parts).Some?
    ensures forall i :: 0 <= i < |parts| ==> WellFormedIdentifier(ParseIdentifiers(parts).value[i])
  {
    if parts != [] {
      ParseIdentifiersWellFormed(parts[1..]);
      var ids := ParseIdentifiers(parts).value;
      assert ids[1..] == ParseIdentifiers(parts[1..]).value;
      forall i | 0 <= i < |parts| ensures WellFormedIdentifier(ids[i]) {
        if i > 0 {
          assert ids[i] == ids[1..][i - 1];
        }
      }
    }
  }

  /** Every version the parser produces can be written back: parsed versions are well formed. */
  lemma ParseWellFormed(s: string)
    requires Parse(s).Some?
    ensures WellFormed(Parse(s).value)
  {
    match SplitOnce(s, '-')
    case None =>
    case Some((core, pre)) =>
      ParseIdentifiersWellFormed(Split(pre, '.'));
  }

  // ---------------------------------------------------------------------------
  // The caret comparator of the semver crate
  // ---------------------------------------------------------------------------

  /** A comparator `^MAJOR[.MINOR[.PATCH]][-PRE]`. */
  datatype Caret = Caret(major: nat, minor: Option<nat>, patch: Option<nat>, pre: seq<Identifier>)

  /** The range test of a caret comparator, before the pre-release rule. */
  predicate MatchesCaretRange(c: Caret, v: Version)
  {
    if v.major != c.major then false
    else if c.minor.None? then true
    else if c.patch.None? then
      (if c.major > 0 then v.minor >= c.minor.value else v.minor == c.minor.value)
    else if c.major > 0 && v.minor != c.minor.value then v.minor > c.minor.value
    else if c.major > 0 && v.patch != c.patch.value then v.patch > c.patch.value
    else if c.major == 0 && c.minor.value > 0 && v.minor != c.minor.value then false
    else if c.major == 0 && c.minor.value > 0 && v.patch != c.patch.value then v.patch > c.patch.value
    else if c.major == 0 && c.minor.value == 0 && (v.minor != c.minor.value || v.patch != c.patch.value) then false
    else ComparePrereleases(v.pre, c.pre) != Less
  }

  /** A pre-release version only matches a comparator that names the same MAJOR.MINOR.PATCH and a pre-release. */
  predicate PrereleaseAdmitted(c: Caret, v: Version)
  {
    c.major == v.major && c.minor == Some(v.minor) && c.patch == Some(v.patch) && c.pre != []
  }

  /** `Comparator::matches`. */
  predicate Matches(c: Caret, v: Version)
  {
    MatchesCaretRange(c, v) && (v.pre == [] || PrereleaseAdmitted(c, v))
  }

  /** `^0.3`, the workload (app image) contract. */
  const APP_COMPARATOR := Caret(0, Some(3), None, [])

  /** `^0.1`, the tool (cli) contract. */
  const CLI_COMPARATOR := Caret(0, Some(1), None, [])

  /** `is_compatible_app_version`: `^0.3` pins the minor because the major is 0; pre-releases never match. */
  predicate IsCompatibleAppVersion(v: Version)
    ensures IsCompatibleAppVersion(v) <==> v.major == 0 && v.minor == 3 && v.pre == []
  {
    Matches(APP_COMPARATOR, v)
  }

  /** `is_compatible_cli_version`: `^0.1`, hence 0.1.x without a pre-release. */
  predicate IsCompatibleCliVersion(v: Version)
    ensures IsCompatibleCliVersion(v) <==> v.major == 0 && v.minor == 1 && v.pre == []
  {
    Matches(CLI_COMPARATOR, v)
  }

  /** For a major-0 comparator without a patch the caret range is exactly `>=0.m.0, <0.(m+1).0` minus pre-releases. */
  lemma CaretMajorZero(m: nat, v: Version)
    ensures Matches(Caret(0, Some(m), None, []), v) <==>
            VersionLe(Version(0, m, 0, []), v) && CompareVersions(v, Version(0, m + 1, 0, [])) == Less && v.pre == []
  {
  }

  /** `current_cli_version`: 0.1.1 (its comment says 0.1.0), and it satisfies this build's tool contract. */
  function CurrentCliVersion(): (v: Version)
    ensures IsCompatibleCliVersion(v) && WellFormed(v)
    ensures Render(v) == "0.1.1"
  {
    Version(0, 1, 1, [])
  }

  /** A container labelled with this build's tool version is read back as compatible. */
  lemma CurrentCliVersionLabelRoundTrip()
    ensures Parse(Render(CurrentCliVersion())) == Some(CurrentCliVersion())
    ensures IsCompatibleCliVersion(Parse(Render(CurrentCliVersion())).value)
  {
    ParseRender(CurrentCliVersion());
  }

  // ---------------------------------------------------------------------------
  // Tags
  // ---------------------------------------------------------------------------

  /** `tag_to_version_or_none`. */
  function TagToVersionOrNone(tag: string): Option<Version>
  {
    Parse(tag)
  }

  /** The contribution of one tag to the filtered versions. */
  function CompatibleVersionOfTag(tag: string): (vs: seq<Version>)
    ensures |vs| <= 1
  {
    match TagToVersionOrNone(tag)
    case Some(v) => if IsCompatibleAppVersion(v) then [v] else []
    case None => []
  }

  /** `tags_to_compatible_app_versions`: parse every tag, drop the unparsable, keep the `^0.3` ones, in order. */
  function TagsToCompatibleAppVersions(tags: seq<string>): (vs: seq<Version>)
    ensures |vs| <= |tags|
    ensures forall i :: 0 <= i < |vs| ==> IsCompatibleAppVersion(vs[i])
  {
    if tags == [] then [] else CompatibleVersionOfTag(tags[0]) + TagsToCompatibleAppVersions(tags[1..])
  }

  /** The filter works tag by tag: it maps a concatenation to the concatenation, so input order is kept. */
  lemma {:induction false} TagsToCompatibleAppVersionsAppend(a: seq<string>, b: seq<string>)
    ensures TagsToCompatibleAppVersions(a + b) == TagsToCompatibleAppVersions(a) + TagsToCompatibleAppVersions(b)
  {
    if a == [] {
      assert a + b == b;
    } else {
      assert (a + b)[0] == a[0] && (a + b)[1..] == a[1..] + b;
      TagsToCompatibleAppVersionsAppend(a[1..], b);
    }
  }

  /** Exactly the versions of the tags that parse and pass the app predicate come out. */
  lemma {:induction false} TagsToCompatibleAppVersionsMembers(tags: seq<string>, v: Version)
    ensures v in TagsToCompatibleAppVersions(tags) <==>
            exists i :: 0 <= i < |tags| && TagToVersionOrNone(tags[i]) == Some(v) && IsCompatibleAppVersion(v)
  {
    if tags != [] {
      TagsToCompatibleAppVersionsMembers(tags[1..], v);
      if exists i :: 0 <= i < |tags| && TagToVersionOrNone(tags[i]) == Some(v) && IsCompatibleAppVersion(v) {
        var i :| 0 <= i < |tags| && TagToVersionOrNone(tags[i]) == Some(v) && IsCompatibleAppVersion(v);
        if i > 0 {
          assert tags[1..][i - 1] == tags[i];
        }
      }
      if exists i :: 0 <= i < |tags| - 1 && TagToVersionOrNone(tags[1..][i]) == Some(v) && IsCompatibleAppVersion(v) {
        var i :| 0 <= i < |tags| - 1 && TagToVersionOrNone(tags[1..][i]) == Some(v) && IsCompatibleAppVersion(v);
        assert tags[i + 1] == tags[1..][i];
      }
    }
  }

  /** The greatest version of a non-empty list. */
  function Maximum(vs: seq<Version>): (m: Version)
    requires vs != []
    ensures m in vs
    ensures forall i :: 0 <= i < |vs| ==> VersionLe(vs[i], m)
  {
    if |vs| == 1 then
      VersionLeTotalOrder(vs[0], vs[0], vs[0]);
      vs[0]
    else
      var rest := Maximum(vs[1..]);
      VersionLeTotalOrder(vs[0], rest, rest);
      assert forall i :: 1 <= i < |vs| ==> VersionLe(vs[i], rest) by {
        forall i | 1 <= i < |vs| ensures VersionLe(vs[i], rest) { assert vs[i] == vs[1..][i - 1]; }
      }
      if VersionLe(vs[0], rest) then rest
      else
        assert forall i :: 1 <= i < |vs| ==> VersionLe(vs[i], vs[0]) by {
          forall i | 1 <= i < |vs| ensures VersionLe(vs[i], vs[0]) { VersionLeTotalOrder(vs[i], rest, vs[0]); }
        }
        vs[0]
  }

  /**
   * `get_latest_compatible_app_version`, with the registry's answer as input.
   * The source sorts the filtered versions and pops the last one; its `expect`
   * on an empty list is a precondition here.
   */
  function GetLatestCompatibleAppVersion(tags: Result<seq<string>, Engine.RegistryError>): (r: Result<Version, Engine.Error>)
    requires tags.Success? ==> TagsToCompatibleAppVersions(tags.value) != []
    ensures tags.Failure? ==> r == Failure(Engine.Context("failed to get registry tags", Engine.Registry(tags.error)))
    ensures tags.Success? ==> (r.Success?
      && r.value in TagsToCompatibleAppVersions(tags.value)
      && forall w :: w in TagsToCompatibleAppVersions(tags.value) ==> VersionLe(w, r.value))
  {
    match tags
    case Failure(e) => Failure(Engine.Context("failed to get registry tags", Engine.Registry(e)))
    case Success(ts) => Success(Maximum(TagsToCompatibleAppVersions(ts)))
  }

  predicate SortedAscending(s: seq<Version>)
  {
    forall i, j :: 0 <= i < j < |s| ==> VersionLe(s[i], s[j])
  }

  /**
   * `sort_unstable` then `pop`: whatever order the unstable sort leaves equal
   * elements in, the last element of an ascending permutation is the maximum.
   */
  lemma LastOfSortedIsMaximum(vs: seq<Version>, sorted: seq<Version>)
    requires vs != [] && |sorted| == |vs|
    requires multiset(sorted) == multiset(vs) && SortedAscending(sorted)
    ensures sorted[|sorted| - 1] == Maximum(vs)
  {
    var m := Maximum(vs);
    var last := sorted[|sorted| - 1];
    assert m in multiset(sorted);
    var k :| 0 <= k < |sorted| && sorted[k] == m;
    assert VersionLe(m, last) by {
      if k < |sorted| - 1 { }
    }
    assert last in multiset(vs);
    assert VersionLe(last, m);
    VersionLeTotalOrder(last, m, m);
  }

  /** A tag that is the text form of a version contributes that version exactly when it is compatible. */
  lemma CompatibleVersionOfRenderedTag(v: Version)
    requires WellFormed(v)
    ensures CompatibleVersionOfTag(Render(v)) == if IsCompatibleAppVersion(v) then [v] else []
  {
    ParseRender(v);
  }

  lemma RenderSingleDigits(a: nat, b: nat, c: nat)
    requires a < 10 && b < 10 && c < 10
    ensures Render(Version(a, b, c, [])) == [DigitChar(a), '.', DigitChar(b), '.', DigitChar(c)]
  {
  }

  lemma LatestOfRenderedTags(v29: Version, v30: Version, v31: Version, v100: Version)
    requires v29 == Version(0, 2, 9, []) && v30 == Version(0, 3, 0, [])
    requires v31 == Version(0, 3, 1, []) && v100 == Version(1, 0, 0, [])
    ensures TagsToCompatibleAppVersions([Render(v29), Render(v30), Render(v31), Render(v100)]) == [v30, v31]
    ensures GetLatestCompatibleAppVersion(Success([Render(v29), Render(v30), Render(v31), Render(v100)])) == Success(v31)
  {
    var tags := [Render(v29), Render(v30), Render(v31), Render(v100)];
    CompatibleOfRenderedTags(v29, v30, v31, v100);
    LatestOfTwo(tags, v30, v31);
  }

  lemma CompatibleOfRenderedTags(v29: Version, v30: Version, v31: Version, v100: Version)
    requires v29 == Version(0, 2, 9, []) && v30 == Version(0, 3, 0, [])
    requires v31 == Version(0, 3, 1, []) && v100 == Version(1, 0, 0, [])
    ensures TagsToCompatibleAppVersions([Render(v29), Render(v30), Render(v31), Render(v100)]) == [v30, v31]
  {
    CompatibleVersionOfRenderedTag(v29);
    CompatibleVersionOfRenderedTag(v30);
    CompatibleVersionOfRenderedTag(v31);
    CompatibleVersionOfRenderedTag(v100);
    CompatibleOfFourTags(Render(v29), Render(v30), Render(v31), Render(v100), v30, v31);
  }

  lemma CompatibleOfFourTags(t0: string, t1: string, t2: string, t3: string, v1: Version, v2: Version)
    requires CompatibleVersionOfTag(t0) == [] && CompatibleVersionOfTag(t1) == [v1]
    requires CompatibleVersionOfTag(t2) == [v2] && CompatibleVersionOfTag(t3) == []
    ensures TagsToCompatibleAppVersions([t0, t1, t2, t3]) == [v1, v2]
  {
    CompatibleOfCons(t3, []);
    assert [t3] == [t3] + [];
    CompatibleOfCons(t2, [t3]);
    assert [t2, t3] == [t2] + [t3];
    CompatibleOfCons(t1, [t2, t3]);
    assert [t1, t2, t3] == [t1] + [t2, t3];
    CompatibleOfCons(t0, [t1, t2, t3]);
    assert [t0, t1, t2, t3] == [t0] + [t1, t2, t3];
  }

  lemma CompatibleOfCons(t: string, rest: seq<string>)
    ensures TagsToCompatibleAppVersions([t] + rest) == CompatibleVersionOfTag(t) + TagsToCompatibleAppVersions(rest)
  {
    assert ([t] + rest)[1..] == rest;
  }

  lemma LatestOfTwo(tags: seq<string>, v30: Version, v31: Version)
    requires v30 == Version(0, 3, 0, []) && v31 == Version(0, 3, 1, [])
    requires TagsToCompatibleAppVersions(tags) == [v30, v31]
    ensures GetLatestCompatibleAppVersion(Success(tags)) == Success(v31)
  {
    var r := GetLatestCompatibleAppVersion(Success(tags));
    VersionLeTotalOrder(r.value, v31, v31);
  }

  /** A worked example: `^0.3` over 0.2.9, 0.3.0, 0.3.1, 1.0.0 picks 0.3.1. */
  lemma LatestExample()
    ensures TagsToCompatibleAppVersions(["0.2.9", "0.3.0", "0.3.1", "1.0.0"]) != []
    ensures GetLatestCompatibleAppVersion(Success(["0.2.9", "0.3.0", "0.3.1", "1.0.0"]))
         == Success(Version(0, 3, 1, []))
  {
    var v29, v30, v31, v100 := Version(0, 2, 9, []), Version(0, 3, 0, []), Version(0, 3, 1, []), Version(1, 0, 0, []);
    RenderSingleDigits(0, 2, 9);
    RenderSingleDigits(0, 3, 0);
    RenderSingleDigits(0, 3, 1);
    RenderSingleDigits(1, 0, 0);
    assert DigitChar(0) == '0' && DigitChar(1) == '1' && DigitChar(2) == '2';
    assert DigitChar(3) == '3' && DigitChar(9) == '9';
    assert [Render(v29), Render(v30), Render(v31), Render(v100)] == ["0.2.9", "0.3.0", "0.3.1", "1.0.0"];
    LatestOfRenderedTags(v29, v30, v31, v100);
  }
}

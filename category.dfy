/** Category resolution (utils/excelParser.ts): the ordered bilingual alias
    table, the first-match substring search over a file name, and the exact
    lookup of a trimmed sheet name. */
module CategoryResolver {
  import opened Types
  import opened Js

  /** CATEGORY_MAP in declaration order; the order is the tie-break of the
      file-name search. */
  const CategoryAliases: seq<(string, Category)> := [
    ("Sun Care", SunCare), ("sun care", SunCare), ("suncare", SunCare), ("sun", SunCare),
    ("Foundation", Foundation), ("foundation", Foundation),
    ("Essence", Essence), ("essence", Essence),
    ("Cream", Cream), ("cream", Cream),
    ("선케어", SunCare), ("선", SunCare), ("파운데이션", Foundation), ("에센스", Essence), ("크림", Cream)
  ]

  /** The alias at `i` occurs, lower-cased, in `name`. */
  predicate AliasMatches(name: string, aliases: seq<(string, Category)>, i: int)
    requires 0 <= i < |aliases|
  {
    Contains(name, ToLower(aliases[i].0))
  }

  /** The category of the first alias whose lower-case form occurs in `name`. */
  function FirstAliasIn(name: string, aliases: seq<(string, Category)>): (r: Option<Category>)
    ensures r.None? <==> forall i :: 0 <= i < |aliases| ==> !AliasMatches(name, aliases, i)
    ensures r.Some? ==> exists i :: 0 <= i < |aliases| && AliasMatches(name, aliases, i)
                          && r.value == aliases[i].1
                          && forall j :: 0 <= j < i ==> !AliasMatches(name, aliases, j)
  {
    if aliases == [] then None
    else if Contains(name, ToLower(aliases[0].0)) then
      assert AliasMatches(name, aliases, 0);
      Some(aliases[0].1)
    else
      var r := FirstAliasIn(name, aliases[1..]);
      assert forall i :: 1 <= i < |aliases| ==>
        (AliasMatches(name, aliases, i) <==> AliasMatches(name, aliases[1..], i - 1));
      if r.Some? then
        ghost var k :| 0 <= k < |aliases[1..]| && AliasMatches(name, aliases[1..], k)
                       && r.value == aliases[1..][k].1
                       && forall j :: 0 <= j < k ==> !AliasMatches(name, aliases[1..], j);
        assert AliasMatches(name, aliases, k + 1);
        r
      else
        r
  }

  /** `filename` without one trailing ".csv", ".xlsx" or ".xls", in any case. */
  function StripExtension(filename: string): string
  {
    var lower := ToLower(filename);
    if EndsWith(lower, ".xlsx") then filename[..|filename| - 5]
    else if EndsWith(lower, ".csv") || EndsWith(lower, ".xls") then filename[..|filename| - 4]
    else filename
  }

  /** The message of a file whose name names no category. */
  function UnknownCategoryMessage(filename: string): string
  {
    "파일명에서 카테고리를 인식할 수 없습니다: " + filename
      + "\n파일명에 suncare, foundation, essence, cream 중 하나를 포함해주세요."
  }

  /** extractCategoryFromFilename: strip the extension, lower-case, then search the aliases in order. */
  function ExtractCategoryFromFilename(filename: string): (r: Option<Category>)
    ensures var name := ToLower(StripExtension(filename));
            r.None? <==> forall i :: 0 <= i < |CategoryAliases| ==> !AliasMatches(name, CategoryAliases, i)
    ensures var name := ToLower(StripExtension(filename));
            r.Some? ==> exists i :: 0 <= i < |CategoryAliases| && AliasMatches(name, CategoryAliases, i)
                          && r.value == CategoryAliases[i].1
                          && forall j :: 0 <= j < i ==> !AliasMatches(name, CategoryAliases, j)
  {
    FirstAliasIn(ToLower(StripExtension(filename)), CategoryAliases)
  }

  /** The category stored under exactly `key`. */
  function AliasLookup(key: string, aliases: seq<(string, Category)>): (r: Option<Category>)
    ensures r.None? <==> forall i :: 0 <= i < |aliases| ==> aliases[i].0 != key
    ensures r.Some? ==> exists i :: 0 <= i < |aliases| && aliases[i] == (key, r.value)
  {
    if aliases == [] then None
    else if aliases[0].0 == key then Some(aliases[0].1)
    else
      var r := AliasLookup(key, aliases[1..]);
      assert forall i :: 1 <= i < |aliases| ==> aliases[i] == aliases[1..][i - 1];
      r
  }

  /** The canonical category named exactly `name`. */
  function CanonicalNamed(name: string): (r: Option<Category>)
    ensures r.Some? ==> CategoryName(r.value) == name
    ensures r.None? ==> forall c: Category :: CategoryName(c) != name
  {
    if name == "Sun Care" then Some(SunCare)
    else if name == "Foundation" then Some(Foundation)
    else if name == "Essence" then Some(Essence)
    else if name == "Cream" then Some(Cream)
    else None
  }

  /** normalizeCategory: the trimmed name looked up exactly (so case matters),
      first in the alias table, then among the canonical names. */
  function NormalizeCategory(name: string): (r: Option<Category>)
    ensures r.Some? <==> (exists i :: 0 <= i < |CategoryAliases| && CategoryAliases[i].0 == Trim(name))
                         || (exists c: Category :: CategoryName(c) == Trim(name))
    ensures r.Some? ==> (exists i :: 0 <= i < |CategoryAliases| && CategoryAliases[i] == (Trim(name), r.value))
                        || CategoryName(r.value) == Trim(name)
  {
    var normalized := Trim(name);
    match AliasLookup(normalized, CategoryAliases)
    case Some(c) => Some(c)
    case None => CanonicalNamed(normalized)
  }

  // ---------------------------------------------------------------- lemmas

  lemma {:induction false} ToLowerAppend(a: string, b: string)
    ensures ToLower(a + b) == ToLower(a) + ToLower(b)
  {
  }

  /** Only a trailing ".csv", ".xlsx" or ".xls", in any case, is stripped. */
  lemma StripExtensionOf(stem: string, ext: string)
    requires ToLower(ext) == ".csv" || ToLower(ext) == ".xlsx" || ToLower(ext) == ".xls"
    ensures StripExtension(stem + ext) == stem
  {
    ToLowerAppend(stem, ext);
    if ToLower(ext) == ".xlsx" {
      StripLong(stem, ext);
    } else {
      StripShort(stem, ext);
    }
  }

  lemma StripLong(stem: string, ext: string)
    requires ToLower(ext) == ".xlsx" && ToLower(stem + ext) == ToLower(stem) + ToLower(ext)
    ensures StripExtension(stem + ext) == stem
  {
    var f := stem + ext;
    assert ToLower(f)[|f| - 5..] == ".xlsx";
    assert f[..|f| - 5] == stem;
  }

  lemma StripShort(stem: string, ext: string)
    requires ToLower(ext) == ".csv" || ToLower(ext) == ".xls"
    requires ToLower(stem + ext) == ToLower(stem) + ToLower(ext)
    ensures StripExtension(stem + ext) == stem
  {
    var f := stem + ext;
    var lower := ToLower(f);
    assert lower[|f| - 4..] == ToLower(ext);
    assert lower[|f| - 1] != 'x';
    assert !EndsWith(lower, ".xlsx");
    assert f[..|f| - 4] == stem;
  }

  /** A file name without one of the three extensions is searched whole. */
  lemma StripExtensionKeeps(filename: string)
    requires !EndsWith(ToLower(filename), ".csv") && !EndsWith(ToLower(filename), ".xlsx")
             && !EndsWith(ToLower(filename), ".xls")
    ensures StripExtension(filename) == filename
  {
  }

  /** A name containing "sun" resolves to Sun Care whatever else it contains:
      every alias before "sun" names Sun Care too. */
  lemma SunWinsOverLaterAliases(filename: string)
    requires Contains(ToLower(StripExtension(filename)), "sun")
    ensures ExtractCategoryFromFilename(filename) == Some(SunCare)
  {
    var name := ToLower(StripExtension(filename));
    SunAliases();
    assert AliasMatches(name, CategoryAliases, 3);
    FirstAliasWithin(name, CategoryAliases, 3);
  }

  lemma SunAliases()
    ensures ToLower(CategoryAliases[3].0) == "sun"
    ensures forall i :: 0 <= i <= 3 ==> CategoryAliases[i].1 == SunCare
  {
  }

  /** When the alias at k occurs, the search stops at k or before. */
  lemma {:induction false} FirstAliasWithin(name: string, aliases: seq<(string, Category)>, k: int)
    requires 0 <= k < |aliases| && AliasMatches(name, aliases, k)
    ensures FirstAliasIn(name, aliases).Some?
    ensures exists i :: 0 <= i <= k && FirstAliasIn(name, aliases) == Some(aliases[i].1)
  {
    if !Contains(name, ToLower(aliases[0].0)) {
      assert AliasMatches(name, aliases[1..], k - 1);
      FirstAliasWithin(name, aliases[1..], k - 1);
      var i :| 0 <= i <= k - 1 && FirstAliasIn(name, aliases[1..]) == Some(aliases[1..][i].1);
      assert FirstAliasIn(name, aliases) == Some(aliases[i + 1].1);
    }
  }

  /** The search returns the first alias that occurs. */
  lemma {:induction false} FirstAliasAt(name: string, aliases: seq<(string, Category)>, k: int)
    requires 0 <= k < |aliases| && AliasMatches(name, aliases, k)
    requires forall j :: 0 <= j < k ==> !AliasMatches(name, aliases, j)
    ensures FirstAliasIn(name, aliases) == Some(aliases[k].1)
  {
    if k > 0 {
      assert !AliasMatches(name, aliases, 0);
      forall j | 0 <= j < k - 1
        ensures !AliasMatches(name, aliases[1..], j)
      {
        assert aliases[1..][j] == aliases[j + 1];
        assert !AliasMatches(name, aliases, j + 1);
      }
      assert aliases[1..][k - 1] == aliases[k];
      FirstAliasAt(name, aliases[1..], k - 1);
    }
  }

  /** A name with both "essence" and "cream" but no earlier alias is Essence:
      the declared order decides. */
  lemma EssenceBeforeCream()
    ensures ExtractCategoryFromFilename("essence_cream.csv") == Some(Essence)
  {
    EssenceBeforeCreamIn("essence_cream.csv");
  }

  lemma EssenceBeforeCreamIn(f: string)
    requires f == "essence_cream.csv"
    ensures ExtractCategoryFromFilename(f) == Some(Essence)
  {
    ToLowerKeeps(".csv");
    assert f == "essence_cream" + ".csv";
    StripExtensionOf("essence_cream", ".csv");
    var stem := StripExtension(f);
    FirstMatchIsEssence(stem);
    assert ExtractCategoryFromFilename(f) == FirstAliasIn(ToLower(stem), CategoryAliases);
  }

  lemma FirstMatchIsEssence(name: string)
    requires name == "essence_cream"
    ensures ToLower(name) == name
    ensures FirstAliasIn(name, CategoryAliases) == Some(Essence)
  {
    ToLowerKeeps(name);
    EssenceMatches(name);
    forall j | 0 <= j < 6
      ensures !AliasMatches(name, CategoryAliases, j)
    {
      NoEarlierAlias(name, j);
    }
    FirstAliasAt(name, CategoryAliases, 6);
  }

  lemma EssenceMatches(name: string)
    requires name == "essence_cream"
    ensures AliasMatches(name, CategoryAliases, 6)
  {
    assert ToLower(CategoryAliases[6].0) == "essence";
    assert OccursAt(name, "essence", 0);
  }

  /** Lower-casing leaves a string without ASCII capitals alone. */
  lemma ToLowerKeeps(s: string)
    requires forall i :: 0 <= i < |s| ==> !('A' <= s[i] <= 'Z')
    ensures ToLower(s) == s
  {
  }

  /** An occurrence starts with the first two characters of what occurs. */
  lemma OccursAtStart(s: string, sub: string, k: int)
    requires |sub| >= 2 && 0 <= k && k + 1 < |s|
    ensures OccursAt(s, sub, k) ==> s[k] == sub[0] && s[k + 1] == sub[1]
  {
    if OccursAt(s, sub, k) {
      assert s[k..k + |sub|][0] == sub[0];
      assert s[k..k + |sub|][1] == sub[1];
    }
  }

  /** None of the Sun Care and Foundation aliases occurs in "essence_cream". */
  lemma NoEarlierAlias(name: string, i: int)
    requires name == "essence_cream" && 0 <= i < 6
    ensures !AliasMatches(name, CategoryAliases, i)
  {
    var a := ToLower(CategoryAliases[i].0);
    AliasHeads(i);
    NoSuOrF(name);
    forall k | 0 <= k <= |name| - |a|
      ensures !OccursAt(name, a, k)
    {
      OccursAtStart(name, a, k);
    }
  }

  /** The Sun Care aliases start with "su", the Foundation ones with "fo". */
  lemma AliasHeads(i: int)
    requires 0 <= i < 6
    ensures var a := ToLower(CategoryAliases[i].0);
            |a| >= 3 && ((a[0] == 's' && a[1] == 'u') || a[0] == 'f')
  {
  }

  lemma NoSuOrF(name: string)
    requires name == "essence_cream"
    ensures forall k :: 0 <= k < |name| ==> name[k] != 'f'
    ensures forall k :: 0 <= k < |name| - 1 ==> !(name[k] == 's' && name[k + 1] == 'u')
  {
  }

  /** Trimming leaves a string with no white space at either end alone. */
  lemma TrimKeeps(s: string)
    requires s != [] && !IsSpace(s[0]) && !IsSpace(s[|s| - 1])
    ensures Trim(s) == s
  {
  }

  /** The exact lookup returns the entry of the first key equal to `key`. */
  lemma {:induction false} AliasLookupAt(key: string, aliases: seq<(string, Category)>, i: int)
    requires 0 <= i < |aliases| && aliases[i].0 == key
    requires forall j :: 0 <= j < i ==> aliases[j].0 != key
    ensures AliasLookup(key, aliases) == Some(aliases[i].1)
  {
    if i > 0 {
      AliasLookupAt(key, aliases[1..], i - 1);
    }
  }

  lemma NormalizeUnique(n: string, c: Category, i: int)
    requires 0 <= i < |CategoryAliases| && CategoryAliases[i] == (n, c)
    requires n != [] && !IsSpace(n[0]) && !IsSpace(n[|n| - 1])
    requires forall j :: 0 <= j < i ==> CategoryAliases[j].0 != n
    ensures NormalizeCategory(n) == Some(c)
  {
    assert Trim(n) == n by { TrimKeeps(n); }
    assert AliasLookup(n, CategoryAliases) == Some(c) by { AliasLookupAt(n, CategoryAliases, i); }
    NormalizeFromLookup(n, c);
  }

  lemma NormalizeFromLookup(n: string, c: Category)
    requires Trim(n) == n && AliasLookup(n, CategoryAliases) == Some(c)
    ensures NormalizeCategory(n) == Some(c)
  {
  }

  /** Every canonical name resolves to its own category. */
  lemma NormalizeCanonical(c: Category)
    ensures NormalizeCategory(CategoryName(c)) == Some(c)
  {
    var i := match c case SunCare => 0 case Foundation => 4 case Essence => 6 case Cream => 8;
    NormalizeUnique(CategoryName(c), c, i);
  }

  /** The sheet-name lookup is case-sensitive: an upper-case canonical name is unknown. */
  lemma NormalizeIsCaseSensitive()
    ensures NormalizeCategory("SUN CARE") == None
  {
    UnknownName("SUN CARE");
  }

  lemma UnknownName(n: string)
    requires n == "SUN CARE"
    ensures NormalizeCategory(n) == None
  {
    TrimKeeps(n);
    assert forall i :: 0 <= i < |CategoryAliases| ==> CategoryAliases[i].0 != n;
  }
}

/**
 * The values the dashboard derives from `salaryData`: the search filter, the
 * three industry counts, and the submit form's required-fields check.
 */
module Views {
  import opened Records

  /** `toLowerCase` on one character (ASCII letters only). */
  function LowerChar(ch: char): char {
    if 'A' <= ch <= 'Z' then (ch as int + 32) as char else ch
  }

  /** `toLowerCase` (ASCII letters only). */
  function Lower(s: string): (r: string)
    ensures |r| == |s|
    ensures forall i :: 0 <= i < |s| ==> r[i] == LowerChar(s[i])
  {
    if s == [] then [] else [LowerChar(s[0])] + Lower(s[1..])
  }

  lemma LowerIdempotent(s: string)
    ensures Lower(Lower(s)) == Lower(s)
  {
  }

  /** `needle` occurs in `hay` starting at position `i`. */
  predicate OccursAt(hay: string, needle: string, i: int) {
    0 <= i && i + |needle| <= |hay| && hay[i..i + |needle|] == needle
  }

  /** `hay.includes(needle)`, by trying each starting position. */
  function Includes(hay: string, needle: string): (r: bool)
    ensures |needle| == 0 ==> r
    ensures r ==> |needle| <= |hay|
    decreases |hay|
  {
    (|needle| <= |hay| && hay[..|needle|] == needle) || (hay != [] && Includes(hay[1..], needle))
  }

  /** An occurrence in `hay[1..]` is an occurrence in `hay`, one position later. */
  lemma OccursShifted(hay: string, needle: string, i: int)
    requires hay != [] && OccursAt(hay[1..], needle, i)
    ensures OccursAt(hay, needle, i + 1)
  {
    assert hay[i + 1..i + 1 + |needle|] == hay[1..][i..i + |needle|];
  }

  /** An occurrence in `hay` at a position other than 0 is an occurrence in `hay[1..]`, one position earlier. */
  lemma OccursUnshifted(hay: string, needle: string, i: int)
    requires OccursAt(hay, needle, i) && i > 0
    ensures OccursAt(hay[1..], needle, i - 1)
  {
    assert hay[1..][i - 1..i - 1 + |needle|] == hay[i..i + |needle|];
  }

  /** `Includes` holds exactly when `needle` occurs somewhere in `hay`. */
  lemma {:induction false} IncludesIff(hay: string, needle: string)
    ensures Includes(hay, needle) <==> exists i :: OccursAt(hay, needle, i)
    decreases |hay|
  {
    if hay == [] {
      if exists i :: OccursAt(hay, needle, i) {
        var i :| OccursAt(hay, needle, i);
        assert |needle| == 0 && hay[..|needle|] == needle;
      }
      if Includes(hay, needle) {
        assert OccursAt(hay, needle, 0);
      }
    } else {
      IncludesIff(hay[1..], needle);
      if Includes(hay, needle) {
        if |needle| <= |hay| && hay[..|needle|] == needle {
          assert hay[0..|needle|] == hay[..|needle|];
          assert OccursAt(hay, needle, 0);
        } else {
          var i :| OccursAt(hay[1..], needle, i);
          OccursShifted(hay, needle, i);
        }
      }
      if exists i :: OccursAt(hay, needle, i) {
        var i :| OccursAt(hay, needle, i);
        if i > 0 {
          OccursUnshifted(hay, needle, i);
        } else {
          assert hay[..|needle|] == hay[0..|needle|];
        }
      }
    }
  }

  /** The search predicate of one record. */
  predicate Matches(r: SalaryData, term: string) {
    var t := Lower(term);
    Includes(Lower(r.industry), t) || Includes(Lower(r.position), t) || Includes(Lower(r.region), t)
  }

  /** `filteredSalaries`: never longer than `salaryData`, and every record it shows is loaded and matches. */
  function FilterSalaries(s: seq<SalaryData>, term: string): (r: seq<SalaryData>)
    ensures |r| <= |s|
    ensures forall x :: x in r ==> x in s && Matches(x, term)
  {
    if s == [] then []
    else (if Matches(s[0], term) then [s[0]] else []) + FilterSalaries(s[1..], term)
  }

  /** `a` is obtained from `b` by deleting elements. */
  predicate IsSubsequence(a: seq<SalaryData>, b: seq<SalaryData>)
    decreases |b|
  {
    if a == [] then true
    else if b == [] then false
    else if a[0] == b[0] then IsSubsequence(a[1..], b[1..])
    else IsSubsequence(a, b[1..])
  }

  /**
   * A record is shown iff it is loaded and the lower-cased term occurs in its
   * lower-cased industry, position or region.
   */
  lemma {:induction false} FilterKeepsExactlyMatches(s: seq<SalaryData>, term: string, r: SalaryData)
    ensures r in FilterSalaries(s, term) <==> r in s && Matches(r, term)
  {
    if s != [] {
      FilterKeepsExactlyMatches(s[1..], term, r);
      assert s == [s[0]] + s[1..];
    }
  }

  /** The shown records keep the order of `salaryData`. */
  lemma {:induction false} FilterIsSubsequence(s: seq<SalaryData>, term: string)
    ensures IsSubsequence(FilterSalaries(s, term), s)
  {
    if s != [] {
      FilterIsSubsequence(s[1..], term);
      var f := FilterSalaries(s, term);
      if Matches(s[0], term) {
        assert f[0] == s[0] && f[1..] == FilterSalaries(s[1..], term);
      } else if f != [] {
        assert f == FilterSalaries(s[1..], term);
        FilterKeepsExactlyMatches(s[1..], term, f[0]);
        assert f[0] != s[0];
      }
    }
  }

  /** An empty search shows every record. */
  lemma {:induction false} FilterEmptyTermKeepsAll(s: seq<SalaryData>)
    ensures FilterSalaries(s, "") == s
  {
    if s != [] {
      FilterEmptyTermKeepsAll(s[1..]);
      assert Lower("") == "";
      assert Includes(Lower(s[0].industry), "");
    }
  }

  /** The search ignores the case of the term. */
  lemma {:induction false} FilterIgnoresTermCase(s: seq<SalaryData>, term: string)
    ensures FilterSalaries(s, term) == FilterSalaries(s, Lower(term))
  {
    LowerIdempotent(term);
    if s != [] {
      FilterIgnoresTermCase(s[1..], term);
    }
  }

  /**
   * `salaryData.filter(s => s.industry === name).length`: at most the number
   * of loaded records, and zero exactly when no loaded record is in `name`.
   */
  function IndustryCount(s: seq<SalaryData>, name: string): (n: nat)
    ensures n <= |s|
    ensures n == 0 <==> forall x :: x in s ==> x.industry != name
  {
    var inIndustry := (r: SalaryData) => r.industry == name;
    CountIfZeroIff(s, inIndustry);
    CountIf(s, inIndustry)
  }

  /** The three dashboard counts never exceed the number of loaded records. */
  lemma {:induction false} DashboardCountsBounded(s: seq<SalaryData>)
    ensures IndustryCount(s, "Technology") + IndustryCount(s, "Finance") + IndustryCount(s, "Healthcare") <= |s|
  {
    if s != [] {
      DashboardCountsBounded(s[1..]);
    }
  }

  /** The counts depend only on which records are loaded, not on their order. */
  lemma IndustryCountIgnoresOrder(a: seq<SalaryData>, b: seq<SalaryData>, name: string)
    requires multiset(a) == multiset(b)
    ensures IndustryCount(a, name) == IndustryCount(b, name)
  {
    CountIfPermutation(a, b, (r: SalaryData) => r.industry == name);
  }

  /**
   * `ModalSubmit.handleSubmit`'s check (`!value` is true only for ""): the
   * form is accepted exactly when none of its four fields is empty.
   */
  function FormComplete(f: SalaryForm): (ok: bool)
    ensures ok <==> "" !in [f.industry, f.position, f.region, f.salary]
  {
    f.industry != "" && f.position != "" && f.region != "" && f.salary != ""
  }
}

/** Model of `src/advancedTypoDetection/advancedTypoDetection.ts`: the
    Levenshtein distance, `getSuggestedDomains`, and the suggestion choice of
    `checkTypoWithSuggestion`. The base typo check it consults
    (`../typo/typo`) is not part of this model; its answer is an input. */
module TypoDetection {
  import opened Text

  // ---------------------------------------------------------------------
  // Edit distance
  // ---------------------------------------------------------------------

  function Min3(a: nat, b: nat, c: nat): (m: nat)
    ensures m <= a && m <= b && m <= c
    ensures m == a || m == b || m == c
  {
    if a <= b && a <= c then a else if b <= c then b else c
  }

  /** Unit-cost insert / delete / substitute distance between `s[..i]` and
      `t[..j]`. */
  function D(s: string, t: string, i: nat, j: nat): nat
    requires i <= |s| && j <= |t|
    decreases i + j
  {
    if i == 0 then j
    else if j == 0 then i
    else Min3(D(s, t, i - 1, j) + 1, D(s, t, i, j - 1) + 1,
              D(s, t, i - 1, j - 1) + (if s[i - 1] == t[j - 1] then 0 else 1))
  }

  /** The edit distance between two whole strings. */
  function Dist(s: string, t: string): nat
  {
    D(s, t, |s|, |t|)
  }

  /** `levenshteinDistance(str1, str2)`: fills `matrix[j][i]` row by row,
      with row `j` for the prefixes of `str2`. */
  method LevenshteinDistance(str1: string, str2: string) returns (d: nat)
    ensures d == Dist(str1, str2)
  {
    var matrix := new nat[|str2| + 1, |str1| + 1];
    for i := 0 to |str1| + 1
      invariant forall ii :: 0 <= ii < i ==> matrix[0, ii] == ii
    {
      matrix[0, i] := i;
    }
    for j := 0 to |str2| + 1
      invariant forall ii :: 0 <= ii <= |str1| ==> matrix[0, ii] == ii
      invariant forall jj :: 0 <= jj < j ==> matrix[jj, 0] == jj
    {
      matrix[j, 0] := j;
    }
    for j := 1 to |str2| + 1
      invariant forall jj, ii {:trigger matrix[jj, ii]} :: 0 <= jj < j && 0 <= ii <= |str1| ==> matrix[jj, ii] == D(str1, str2, ii, jj)
      invariant forall jj :: j <= jj <= |str2| ==> matrix[jj, 0] == jj
    {
      FillRow(matrix, str1, str2, j);
    }
    d := matrix[|str2|, |str1|];
  }

  /** One pass of the inner loop: row `j` from the row above it. */
  method FillRow(matrix: array2<nat>, str1: string, str2: string, j: nat)
    requires matrix.Length0 == |str2| + 1 && matrix.Length1 == |str1| + 1
    requires 1 <= j <= |str2|
    requires forall jj, ii {:trigger matrix[jj, ii]} :: 0 <= jj < j && 0 <= ii <= |str1| ==> matrix[jj, ii] == D(str1, str2, ii, jj)
    requires forall jj :: j <= jj <= |str2| ==> matrix[jj, 0] == jj
    modifies matrix
    ensures forall jj, ii {:trigger matrix[jj, ii]} :: 0 <= jj <= j && 0 <= ii <= |str1| ==> matrix[jj, ii] == D(str1, str2, ii, jj)
    ensures forall jj :: j < jj <= |str2| ==> matrix[jj, 0] == jj
  {
    for i := 1 to |str1| + 1
      invariant forall jj, ii {:trigger matrix[jj, ii]} :: 0 <= jj <= |str2| && 0 <= ii <= |str1| && (jj != j || ii >= i) ==>
                  matrix[jj, ii] == old(matrix[jj, ii])
      invariant forall ii {:trigger matrix[j, ii]} :: 0 <= ii < i ==> matrix[j, ii] == D(str1, str2, ii, j)
    {
      var indicator := if str1[i - 1] == str2[j - 1] then 0 else 1;
      var left, up, diag := matrix[j, i - 1], matrix[j - 1, i], matrix[j - 1, i - 1];
      assert up == old(matrix[j - 1, i]) == D(str1, str2, i, j - 1);
      assert diag == old(matrix[j - 1, i - 1]) == D(str1, str2, i - 1, j - 1);
      assert left == D(str1, str2, i - 1, j);
      DStep(str1, str2, i, j);
      matrix[j, i] := Min3(left + 1, up + 1, diag + indicator);
    }
  }

  lemma DStep(s: string, t: string, i: nat, j: nat)
    requires 1 <= i <= |s| && 1 <= j <= |t|
    ensures D(s, t, i, j) == Min3(D(s, t, i - 1, j) + 1, D(s, t, i, j - 1) + 1,
                                  D(s, t, i - 1, j - 1) + (if s[i - 1] == t[j - 1] then 0 else 1))
  {
  }

  /** Against the empty string the distance is the other length. */
  lemma DistToEmpty(s: string)
    ensures Dist(s, "") == |s| && Dist("", s) == |s|
  {
  }

  lemma {:induction false} DSymmetric(s: string, t: string, i: nat, j: nat)
    requires i <= |s| && j <= |t|
    ensures D(s, t, i, j) == D(t, s, j, i)
    decreases i + j
  {
    if i > 0 && j > 0 {
      DSymmetric(s, t, i - 1, j);
      DSymmetric(s, t, i, j - 1);
      DSymmetric(s, t, i - 1, j - 1);
      DStep(s, t, i, j);
      DStep(t, s, j, i);
    }
  }

  lemma DistSymmetric(s: string, t: string)
    ensures Dist(s, t) == Dist(t, s)
  {
    DSymmetric(s, t, |s|, |t|);
  }

  lemma {:induction false} DZeroIffEqual(s: string, t: string, i: nat, j: nat)
    requires i <= |s| && j <= |t|
    ensures D(s, t, i, j) == 0 <==> i == j && s[..i] == t[..j]
    decreases i + j
  {
    if i > 0 && j > 0 {
      DZeroIffEqual(s, t, i - 1, j - 1);
      if D(s, t, i, j) == 0 {
        assert s[..i] == s[..i - 1] + [s[i - 1]] && t[..j] == t[..j - 1] + [t[j - 1]];
      }
      if i == j && s[..i] == t[..j] {
        assert s[..i - 1] == s[..i][..i - 1] && t[..j - 1] == t[..j][..j - 1];
        assert s[i - 1] == s[..i][i - 1];
      }
    }
  }

  /** The distance is zero exactly for equal strings. */
  lemma DistZeroIffEqual(s: string, t: string)
    ensures Dist(s, t) == 0 <==> s == t
  {
    DZeroIffEqual(s, t, |s|, |t|);
    assert s[..|s|] == s && t[..|t|] == t;
  }

  lemma {:induction false} DUpper(s: string, t: string, i: nat, j: nat)
    requires i <= |s| && j <= |t|
    ensures D(s, t, i, j) <= if i >= j then i else j
    decreases i + j
  {
    if i > 0 && j > 0 {
      DUpper(s, t, i - 1, j - 1);
      DStep(s, t, i, j);
    }
  }

  lemma {:induction false} DLower(s: string, t: string, i: nat, j: nat)
    requires i <= |s| && j <= |t|
    ensures D(s, t, i, j) >= if i >= j then i - j else j - i
    decreases i + j
  {
    if i > 0 && j > 0 {
      DLower(s, t, i - 1, j);
      DLower(s, t, i, j - 1);
      DLower(s, t, i - 1, j - 1);
      DStep(s, t, i, j);
    }
  }

  /** The distance lies between the difference of the lengths and the
      longer length. */
  lemma DistBounds(s: string, t: string)
    ensures Dist(s, t) <= if |s| >= |t| then |s| else |t|
    ensures Dist(s, t) >= if |s| >= |t| then |s| - |t| else |t| - |s|
  {
    DUpper(s, t, |s|, |t|);
    DLower(s, t, |s|, |t|);
  }

  // ---------------------------------------------------------------------
  // getSuggestedDomains
  // ---------------------------------------------------------------------

  const CommonDomains: seq<string> := [
    "gmail.com", "yahoo.com", "hotmail.com", "outlook.com", "live.com",
    "aol.com", "icloud.com", "mail.com", "gmx.com", "protonmail.com",
    "zoho.com", "yandex.com", "fastmail.com", "tutanota.com"]

  datatype Suggestion = Suggestion(domain: string, distance: nat)

  /** The entries `{domain, distance}` pushed while scanning `candidates`:
      those at distance 1 or 2. */
  function Candidates(domain: string, candidates: seq<string>): (r: seq<Suggestion>)
    ensures forall k :: 0 <= k < |r| ==> r[k].distance == Dist(domain, r[k].domain)
    ensures forall k :: 0 <= k < |r| ==> 0 < r[k].distance <= 2 && r[k].domain in candidates
    decreases |candidates|
  {
    if candidates == [] then []
    else
      var last := candidates[|candidates| - 1];
      var d := Dist(domain, last);
      var init := candidates[..|candidates| - 1];
      assert forall c :: c in init ==> c in candidates;
      Candidates(domain, init) + (if 0 < d <= 2 then [Suggestion(last, d)] else [])
  }

  /** Every candidate at distance 1 or 2 is pushed. */
  lemma {:induction false} CandidatesComplete(domain: string, candidates: seq<string>, c: string)
    requires c in candidates && 0 < Dist(domain, c) <= 2
    ensures Suggestion(c, Dist(domain, c)) in Candidates(domain, candidates)
    decreases |candidates|
  {
    var init := candidates[..|candidates| - 1];
    if c != candidates[|candidates| - 1] {
      assert candidates == init + [candidates[|candidates| - 1]];
      assert c in init;
      CandidatesComplete(domain, init, c);
    }
  }

  predicate Sorted(s: seq<Suggestion>)
  {
    forall i, j :: 0 <= i < j < |s| ==> s[i].distance <= s[j].distance
  }

  /** The entries of `s` with distance `k`, in their order. */
  function WithDistance(s: seq<Suggestion>, k: nat): seq<Suggestion>
    decreases |s|
  {
    if s == [] then []
    else (if s[0].distance == k then [s[0]] else []) + WithDistance(s[1..], k)
  }

  /** Insert `x` before the first entry of `r` whose distance is at least
      its own. */
  function Insert(x: Suggestion, r: seq<Suggestion>): seq<Suggestion>
    decreases |r|
  {
    if r == [] || x.distance <= r[0].distance then [x] + r
    else [r[0]] + Insert(x, r[1..])
  }

  /** `Array.prototype.sort` with comparator `a.distance - b.distance`; the
      sort is stable, which insertion from the back reproduces. */
  function SortByDistance(s: seq<Suggestion>): seq<Suggestion>
    decreases |s|
  {
    if s == [] then [] else Insert(s[0], SortByDistance(s[1..]))
  }

  lemma {:induction false} InsertElements(x: Suggestion, r: seq<Suggestion>)
    ensures multiset(Insert(x, r)) == multiset(r) + multiset{x}
    decreases |r|
  {
    if !(r == [] || x.distance <= r[0].distance) {
      InsertElements(x, r[1..]);
      assert r == [r[0]] + r[1..];
    }
  }

  lemma {:induction false} InsertSorted(x: Suggestion, r: seq<Suggestion>)
    requires Sorted(r)
    ensures Sorted(Insert(x, r))
    decreases |r|
  {
    if !(r == [] || x.distance <= r[0].distance) {
      InsertSorted(x, r[1..]);
      InsertElements(x, r[1..]);
      var t := Insert(x, r[1..]);
      forall k | 0 <= k < |t| ensures r[0].distance <= t[k].distance {
        assert t[k] in multiset(t);
        assert t[k] == x || t[k] in r[1..];
      }
    }
  }

  lemma {:induction false} InsertWithDistance(x: Suggestion, r: seq<Suggestion>, k: nat)
    ensures WithDistance(Insert(x, r), k) == (if x.distance == k then [x] else []) + WithDistance(r, k)
    decreases |r|
  {
    if r == [] || x.distance <= r[0].distance {
      assert ([x] + r)[1..] == r;
    } else {
      var t := Insert(x, r[1..]);
      InsertWithDistance(x, r[1..], k);
      assert ([r[0]] + t)[1..] == t;
      var head := if r[0].distance == k then [r[0]] else [];
      assert WithDistance([r[0]] + t, k) == head + WithDistance(t, k);
      assert WithDistance(r, k) == head + WithDistance(r[1..], k);
      if x.distance == k {
        assert head == [];
      } else {
        assert WithDistance(t, k) == WithDistance(r[1..], k);
      }
    }
  }

  /** The sort returns a sorted permutation of its input. */
  lemma {:induction false} SortSortsAndPermutes(s: seq<Suggestion>)
    ensures Sorted(SortByDistance(s))
    ensures multiset(SortByDistance(s)) == multiset(s)
    decreases |s|
  {
    if s != [] {
      SortSortsAndPermutes(s[1..]);
      InsertSorted(s[0], SortByDistance(s[1..]));
      InsertElements(s[0], SortByDistance(s[1..]));
      assert s == [s[0]] + s[1..];
    }
  }

  /** The sort is stable: the entries of each distance keep their order. */
  lemma {:induction false} SortIsStable(s: seq<Suggestion>, k: nat)
    ensures WithDistance(SortByDistance(s), k) == WithDistance(s, k)
    decreases |s|
  {
    if s != [] {
      SortIsStable(s[1..], k);
      InsertWithDistance(s[0], SortByDistance(s[1..]), k);
    }
  }

  function Domains(s: seq<Suggestion>): (r: seq<string>)
    ensures |r| == |s| && forall k :: 0 <= k < |s| ==> r[k] == s[k].domain
  {
    seq(|s|, k requires 0 <= k < |s| => s[k].domain)
  }

  /** What `getSuggestedDomains(domain)` returns. */
  function SuggestedDomains(domain: string): seq<string>
  {
    Domains(SortByDistance(Candidates(domain, CommonDomains)))
  }

  /** `getSuggestedDomains`: scan `commonDomains`, push the near ones, then
      sort by distance and keep the names. */
  method GetSuggestedDomains(domain: string) returns (r: seq<string>)
    ensures r == SuggestedDomains(domain)
  {
    var suggestions: seq<Suggestion> := [];
    for k := 0 to |CommonDomains|
      invariant suggestions == Candidates(domain, CommonDomains[..k])
    {
      var candidate := CommonDomains[k];
      var distance := LevenshteinDistance(domain, candidate);
      assert CommonDomains[..k + 1][..k] == CommonDomains[..k];
      if distance <= 2 && distance > 0 {
        suggestions := suggestions + [Suggestion(candidate, distance)];
      }
    }
    assert CommonDomains[..|CommonDomains|] == CommonDomains;
    r := Domains(SortByDistance(suggestions));
  }

  /** Every suggestion is a common domain at distance 1 or 2, so never the
      input itself; every common domain at distance 1 or 2 is suggested. */
  lemma SuggestionsAreTheNearDomains(domain: string)
    ensures forall c :: c in SuggestedDomains(domain) ==> c in CommonDomains && 0 < Dist(domain, c) <= 2
    ensures domain !in SuggestedDomains(domain)
    ensures forall c :: c in CommonDomains && 0 < Dist(domain, c) <= 2 ==> c in SuggestedDomains(domain)
  {
    SortedCandidatesAreNear(domain, CommonDomains);
    forall c | c in CommonDomains && 0 < Dist(domain, c) <= 2 ensures c in SuggestedDomains(domain) {
      SortedCandidatesComplete(domain, CommonDomains, c);
    }
    if domain in SuggestedDomains(domain) {
      DistZeroIffEqual(domain, domain);
    }
  }

  lemma SortedCandidatesAreNear(domain: string, candidates: seq<string>)
    ensures forall c :: c in Domains(SortByDistance(Candidates(domain, candidates))) ==>
              c in candidates && 0 < Dist(domain, c) <= 2
  {
    var cands := Candidates(domain, candidates);
    var sorted := SortByDistance(cands);
    SortSortsAndPermutes(cands);
    forall c | c in Domains(sorted) ensures c in candidates && 0 < Dist(domain, c) <= 2 {
      var k :| 0 <= k < |sorted| && Domains(sorted)[k] == c;
      assert sorted[k] in multiset(cands);
      var m :| 0 <= m < |cands| && cands[m] == sorted[k];
    }
  }

  lemma SortedCandidatesComplete(domain: string, candidates: seq<string>, c: string)
    requires c in candidates && 0 < Dist(domain, c) <= 2
    ensures c in Domains(SortByDistance(Candidates(domain, candidates)))
  {
    var cands := Candidates(domain, candidates);
    var sorted := SortByDistance(cands);
    SortSortsAndPermutes(cands);
    var x := Suggestion(c, Dist(domain, c));
    CandidatesComplete(domain, candidates, c);
    assert x in multiset(cands);
    assert x in sorted;
    var m :| 0 <= m < |sorted| && sorted[m] == x;
    assert Domains(sorted)[m] == c;
  }

  /** The suggestions are ordered by distance, and those at the same
      distance keep the order of `commonDomains`. */
  lemma SuggestionsOrdered(domain: string, k: nat)
    ensures var sorted := SortByDistance(Candidates(domain, CommonDomains));
      Sorted(sorted) &&
      WithDistance(sorted, k) == WithDistance(Candidates(domain, CommonDomains), k)
  {
    SortSortsAndPermutes(Candidates(domain, CommonDomains));
    SortIsStable(Candidates(domain, CommonDomains), k);
  }

  // ---------------------------------------------------------------------
  // checkTypoWithSuggestion
  // ---------------------------------------------------------------------

  /** `commonTypos`, in key order. */
  const CommonTypos: seq<(string, string)> := [
    ("gmial.com", "gmail.com"), ("gmai.com", "gmail.com"), ("gmil.com", "gmail.com"),
    ("gmal.com", "gmail.com"), ("yaho.com", "yahoo.com"), ("yahooo.com", "yahoo.com"),
    ("yahou.com", "yahoo.com"), ("hotmial.com", "hotmail.com"), ("hotmail.co", "hotmail.com"),
    ("outlok.com", "outlook.com"), ("outlook.co", "outlook.com"), ("outloo.com", "outlook.com"),
    ("live.co", "live.com"), ("aol.co", "aol.com"), ("icloud.co", "icloud.com"),
    ("protomail.com", "protonmail.com"), ("zoho.co", "zoho.com"), ("mail.co", "mail.com"),
    ("gmx.co", "gmx.com")]

  /** `obj[key]` on an object literal given as its entries in order. */
  function Lookup(pairs: seq<(string, string)>, key: string): (r: Option<string>)
    ensures r.None? <==> forall k :: 0 <= k < |pairs| ==> pairs[k].0 != key
    ensures r.Some? ==> exists k :: 0 <= k < |pairs| && pairs[k] == (key, r.value)
    decreases |pairs|
  {
    if pairs == [] then None
    else if pairs[0].0 == key then Some(pairs[0].1)
    else
      var r := Lookup(pairs[1..], key);
      assert r.Some? ==> exists k :: 0 <= k < |pairs[1..]| && pairs[1..][k] == (key, r.value);
      assert forall k :: 1 <= k < |pairs| ==> pairs[k] == pairs[1..][k - 1];
      r
  }

  /** A key that no earlier entry has is looked up to its own value. */
  lemma {:induction false} LookupFirstKey(pairs: seq<(string, string)>, k: nat)
    requires k < |pairs| && forall j :: 0 <= j < k ==> pairs[j].0 != pairs[k].0
    ensures Lookup(pairs, pairs[k].0) == Some(pairs[k].1)
    decreases k
  {
    if k > 0 {
      LookupFirstKey(pairs[1..], k - 1);
    }
  }

  /** `commonTypos[domain]`. */
  function LookupTypo(domain: string): Option<string>
  {
    Lookup(CommonTypos, domain)
  }

  /** `Object.keys(obj)` for an object literal given as its entries. */
  function Keys(pairs: seq<(string, string)>): (keys: seq<string>)
    ensures |keys| == |pairs| && forall k :: 0 <= k < |keys| ==> keys[k] == pairs[k].0
  {
    seq(|pairs|, k requires 0 <= k < |pairs| => pairs[k].0)
  }

  /** Every key and every correction is non-empty, hence truthy. */
  predicate Truthy(pairs: seq<(string, string)>)
  {
    forall k :: 0 <= k < |pairs| ==> pairs[k].0 != "" && pairs[k].1 != ""
  }

  lemma CommonTyposTruthy()
    ensures Truthy(CommonTypos)
  {
    forall k | 0 <= k < |CommonTypos| ensures CommonTypos[k].0 != "" && CommonTypos[k].1 != "" {
      assert |CommonTypos[k].0| >= 6 && |CommonTypos[k].1| >= 7;
    }
  }

  /** Key `k` of `keys` is the one the best-match loop settles on: within
      distance 2, no farther than any other key, and strictly nearer than
      every key before it. */
  ghost predicate IsBestIn(domain: string, keys: seq<string>, k: nat)
  {
    k < |keys| && Dist(domain, keys[k]) <= 2 &&
    (forall j :: 0 <= j < |keys| ==> Dist(domain, keys[k]) <= Dist(domain, keys[j])) &&
    (forall j :: 0 <= j < k ==> Dist(domain, keys[j]) > Dist(domain, keys[k]))
  }

  ghost predicate NoneNearIn(domain: string, keys: seq<string>)
  {
    forall j :: 0 <= j < |keys| ==> Dist(domain, keys[j]) > 2
  }

  /** At most one key is the best one. */
  lemma BestKeyUnique(domain: string, keys: seq<string>, k1: nat, k2: nat)
    requires IsBestIn(domain, keys, k1) && IsBestIn(domain, keys, k2)
    ensures k1 == k2
  {
  }

  /** Either no key is within distance 2, or a best key exists. */
  lemma BestKeyExists(domain: string, keys: seq<string>)
    ensures NoneNearIn(domain, keys) || exists k: nat :: IsBestIn(domain, keys, k)
  {
    if !NoneNearIn(domain, keys) {
      var best: nat := 0;
      var found := false;
      for j := 0 to |keys|
        invariant found ==> best < j && Dist(domain, keys[best]) <= 2
        invariant found ==> forall m :: 0 <= m < j ==> Dist(domain, keys[best]) <= Dist(domain, keys[m]) || Dist(domain, keys[m]) > 2
        invariant found ==> forall m :: 0 <= m < best ==> Dist(domain, keys[m]) > Dist(domain, keys[best])
        invariant !found ==> forall m :: 0 <= m < j ==> Dist(domain, keys[m]) > 2
      {
        var dj := Dist(domain, keys[j]);
        if dj <= 2 && (!found || dj < Dist(domain, keys[best])) {
          best, found := j, true;
        }
      }
      assert IsBestIn(domain, keys, best);
    }
  }

  datatype TypoResult = TypoResult(isTypo: bool, suggestion: Option<string>)

  /** A call either returns a result or throws; it throws when the address
      has no '@', because the distance is then taken of `undefined`. */
  datatype TypoOutcome = Returned(result: TypoResult) | Thrown

  /** `email.toLowerCase().split('@')`, whose first two pieces are
      `[localPart, domain]`. */
  function Parts(email: string): seq<string>
  {
    Split(ToLower(email), '@')
  }

  /** The best-match loop over `keys`; `bestDistance` starts at
      `Infinity`, modelled as `None`. A match is recognised by being
      non-empty, as the code tests `if (bestMatch)`. */
  method BestMatch(domain: string, keys: seq<string>) returns (bestMatch: string)
    requires forall k :: 0 <= k < |keys| ==> keys[k] != ""
    ensures bestMatch == "" ==> NoneNearIn(domain, keys)
    ensures bestMatch != "" ==> exists k: nat :: IsBestIn(domain, keys, k) && keys[k] == bestMatch
  {
    bestMatch := "";
    var bestDistance: Option<nat> := None;
    ghost var bestIndex: nat := 0;
    for j := 0 to |keys|
      invariant bestDistance.None? <==> bestMatch == ""
      invariant bestDistance.Some? ==> bestIndex < j && keys[bestIndex] == bestMatch
      invariant bestDistance.Some? ==> bestDistance.value == Dist(domain, bestMatch) <= 2
      invariant bestDistance.Some? ==> forall m :: 0 <= m < j ==> bestDistance.value <= Dist(domain, keys[m]) || Dist(domain, keys[m]) > 2
      invariant bestDistance.Some? ==> forall m :: 0 <= m < bestIndex ==> Dist(domain, keys[m]) > bestDistance.value
      invariant bestDistance.None? ==> forall m :: 0 <= m < j ==> Dist(domain, keys[m]) > 2
    {
      var correction := keys[j];
      var distance := LevenshteinDistance(domain, correction);
      if (bestDistance.None? || distance < bestDistance.value) && distance <= 2 {
        bestDistance := Some(distance);
        bestMatch := correction;
        bestIndex := j;
      }
    }
    if bestMatch != "" {
      assert IsBestIn(domain, keys, bestIndex);
    }
  }

  /** `commonTypos[domain]`, then, when that is falsy, the best-match loop
      and `commonTypos[bestMatch]`; stated for any table of truthy entries. */
  method Suggest(domain: string, typos: seq<(string, string)>) returns (suggestion: Option<string>)
    requires Truthy(typos)
    ensures Lookup(typos, domain).Some? ==> suggestion == Lookup(typos, domain)
    ensures Lookup(typos, domain).None? ==>
              forall k: nat :: IsBestIn(domain, Keys(typos), k) ==> suggestion == Some(typos[k].1)
    ensures Lookup(typos, domain).None? && NoneNearIn(domain, Keys(typos)) ==> suggestion.None?
  {
    suggestion := Lookup(typos, domain);
    if suggestion.None? {
      var bestMatch := BestMatch(domain, Keys(typos));
      if bestMatch != "" {
        ghost var k: nat :| IsBestIn(domain, Keys(typos), k) && Keys(typos)[k] == bestMatch;
        LookupFirstKey(typos, k);
        suggestion := Lookup(typos, bestMatch);
        forall k': nat | IsBestIn(domain, Keys(typos), k') ensures k' == k {
          BestKeyUnique(domain, Keys(typos), k, k');
        }
      }
    }
  }

  /** The suggestion part of `checkTypoWithSuggestion`; `baseIsTypo` is the
      truthiness of the base check's answer. The confidence value is not
      modelled. */
  method CheckTypoWithSuggestion(baseIsTypo: bool, email: string) returns (r: TypoOutcome)
    ensures !baseIsTypo ==> r == Returned(TypoResult(false, None))
    ensures baseIsTypo && |Parts(email)| < 2 ==> r == Thrown
    ensures baseIsTypo && |Parts(email)| >= 2 && LookupTypo(Parts(email)[1]).Some? ==>
              r == Returned(TypoResult(true, Some(Parts(email)[0] + "@" + LookupTypo(Parts(email)[1]).value)))
    ensures baseIsTypo && |Parts(email)| >= 2 && LookupTypo(Parts(email)[1]).None? ==>
              forall k: nat :: IsBestIn(Parts(email)[1], Keys(CommonTypos), k) ==>
                r == Returned(TypoResult(true, Some(Parts(email)[0] + "@" + CommonTypos[k].1)))
    ensures baseIsTypo && |Parts(email)| >= 2 && LookupTypo(Parts(email)[1]).None? &&
            NoneNearIn(Parts(email)[1], Keys(CommonTypos)) ==>
              r == Returned(TypoResult(true, None))
  {
    if !baseIsTypo {
      return Returned(TypoResult(false, None));
    }
    var parts := Parts(email);
    if |parts| < 2 {
      // `domain` is `undefined`: the lookup misses and the distance throws.
      return Thrown;
    }
    CommonTyposTruthy();
    var suggestion := Suggest(parts[1], CommonTypos);
    r := Returned(TypoResult(true, if suggestion.Some? then Some(parts[0] + "@" + suggestion.value) else None));
  }

  /** An address without '@' makes the call throw once the base check
      reports a typo. */
  lemma NoAtThrows(email: string)
    requires '@' !in email
    ensures |Parts(email)| == 1
  {
  }
}

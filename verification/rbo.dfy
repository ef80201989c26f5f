/**
  Rank-biased overlap (Webber, Moffat and Zobel) between two SERPs, following
  the dlukes/rbo formulation: the fraction of shared domains between equal-depth
  prefixes ("agreement"), and three estimates built from it: a lower bound
  (min), a residual upper bound (res) and a point estimate (ext).
  Arithmetic is exact over `real`; math.Pow with an integer exponent is Pow,
  math.Ceil is Ceil, and the natural logarithm is a parameter `ln`.
*/
module Rbo {
  import opened Wrappers
  import opened Rankings

  // ---------------------------------------------------------------------------
  // Lists of members viewed as sets of domains.

  /** The smaller of two integers (Go's variadic min on two arguments). */
  function Smaller(x: int, y: int): (m: int)
    ensures m <= x && m <= y && (m == x || m == y)
  {
    if x <= y then x else y
  }

  /** The first `depth` members, or all of them when there are fewer. */
  function Prefix(ms: seq<SERPMember>, depth: nat): seq<SERPMember>
  {
    ms[..Smaller(depth, |ms|)]
  }

  /** The domains present in a list of members. */
  function Domains(ms: seq<SERPMember>): set<string>
  {
    if ms == [] then {} else Domains(ms[..|ms| - 1]) + {ms[|ms| - 1].domain}
  }

  /** How many members of the list have domain `d`. */
  function Occurrences(ms: seq<SERPMember>, d: string): nat
  {
    if ms == [] then 0
    else Occurrences(ms[..|ms| - 1], d) + (if ms[|ms| - 1].domain == d then 1 else 0)
  }

  /** No domain appears twice: the list behaves as a set. */
  predicate UniqueDomains(ms: seq<SERPMember>)
  {
    forall i, j :: 0 <= i < j < |ms| ==> ms[i].domain != ms[j].domain
  }

  /**
    The domains that `intersection` reports: those counted at least twice over
    both lists together.
  */
  function SharedDomains(a: seq<SERPMember>, b: seq<SERPMember>): set<string>
  {
    set d | d in Domains(a) + Domains(b) && Occurrences(a, d) + Occurrences(b, d) >= 2
  }

  /** Go's `h[d]` on a count map: zero for a missing key. */
  function Count(h: map<string, nat>, d: string): nat
  {
    if d in h then h[d] else 0
  }

  // ---------------------------------------------------------------------------
  // The helpers of rbo.go, with their loops.

  /** Variadic minimum: one of the arguments, no greater than any of them. */
  method Min(nums: seq<int>) returns (m: int)
    requires |nums| > 0
    ensures m in nums
    ensures forall n :: n in nums ==> m <= n
  {
    m := nums[0];
    for i := 1 to |nums|
      invariant m in nums[..i]
      invariant forall n :: n in nums[..i] ==> m <= n
    {
      assert nums[..i + 1] == nums[..i] + [nums[i]];
      if nums[i] < m {
        m := nums[i];
      }
    }
    assert nums[..|nums|] == nums;
  }

  /** One of intersection's counting loops: adds one to h[d] for the domain d of every member. */
  method CountDomains(h0: map<string, nat>, ms: seq<SERPMember>) returns (h: map<string, nat>)
    ensures h.Keys == h0.Keys + Domains(ms)
    ensures forall d :: Count(h, d) == Count(h0, d) + Occurrences(ms, d)
  {
    h := h0;
    for i := 0 to |ms|
      invariant h.Keys == h0.Keys + Domains(ms[..i])
      invariant forall d :: Count(h, d) == Count(h0, d) + Occurrences(ms[..i], d)
    {
      DomainsStep(ms, i);
      OccurrencesStep(ms, i);
      h := h[ms[i].domain := Count(h, ms[i].domain) + 1];
    }
    assert ms[..|ms|] == ms;
  }

  /** Extending a prefix by one member adds one to that member's domain count only. */
  lemma OccurrencesStep(ms: seq<SERPMember>, k: nat)
    requires k < |ms|
    ensures forall d :: Occurrences(ms[..k + 1], d) == Occurrences(ms[..k], d) + (if ms[k].domain == d then 1 else 0)
  {
    assert ms[..k + 1][..k] == ms[..k];
  }

  /** The keys counted at least twice. */
  function Repeated(h: map<string, nat>): set<string>
  {
    set d | d in h && h[d] >= 2
  }

  /** intersection's final loop: each key counted at least twice, once, in no particular order. */
  method ReportRepeated(h: map<string, nat>) returns (domains: seq<string>)
    ensures forall d :: d in domains <==> d in Repeated(h)
    ensures forall i, j :: 0 <= i < j < |domains| ==> domains[i] != domains[j]
    ensures |domains| == |Repeated(h)|
  {
    domains := [];
    ghost var reported: set<string> := {};
    var pending := h.Keys;
    while pending != {}
      invariant pending <= h.Keys
      invariant reported == (set d | d in h.Keys - pending && h[d] >= 2)
      invariant forall d :: d in domains <==> d in reported
      invariant |domains| == |reported|
      invariant forall i, j :: 0 <= i < j < |domains| ==> domains[i] != domains[j]
      decreases pending
    {
      var d :| d in pending;
      if h[d] >= 2 {
        domains := domains + [d];
        reported := reported + {d};
      }
      pending := pending - {d};
    }
    assert reported == Repeated(h);
  }

  /**
    Counts every domain of both lists in a map and reports, each once and in
    no particular order, the domains counted at least twice.
  */
  method Intersection(a: seq<SERPMember>, b: seq<SERPMember>) returns (domains: seq<string>)
    ensures forall d :: d in domains <==> d in SharedDomains(a, b)
    ensures forall i, j :: 0 <= i < j < |domains| ==> domains[i] != domains[j]
    ensures |domains| == |SharedDomains(a, b)|
  {
    var h := CountDomains(map[], a);
    h := CountDomains(h, b);
    domains := ReportRepeated(h);
    assert Repeated(h) == SharedDomains(a, b) by {
      forall d | d in h
        ensures h[d] == Occurrences(a, d) + Occurrences(b, d)
      {
        assert Count(h, d) == h[d];
      }
    }
  }

  /**
    The sizes rawOverlap reports at a depth: the shared domains of the two
    prefixes and the prefix lengths min(depth, |a|) and min(depth, |b|).
  */
  method RawOverlap(a: SERP, b: SERP, depth: nat) returns (lenIntersect: nat, lenA: nat, lenB: nat)
    ensures lenA <= depth && lenA <= a.Length() && (lenA == depth || lenA == a.Length())
    ensures lenB <= depth && lenB <= b.Length() && (lenB == depth || lenB == b.Length())
    ensures lenIntersect == |SharedDomains(a.members[..lenA], b.members[..lenB])|
    ensures UniqueDomains(a.members) && UniqueDomains(b.members) ==> lenIntersect <= lenA && lenIntersect <= lenB
  {
    var aCopy: seq<SERPMember> := [];
    for i := 0 to |a.members|
      invariant aCopy == a.members[..i]
    {
      aCopy := aCopy + [a.members[i]];
    }
    assert a.members[..|a.members|] == a.members;
    var bCopy: seq<SERPMember> := [];
    for i := 0 to |b.members|
      invariant bCopy == b.members[..i]
    {
      bCopy := bCopy + [b.members[i]];
    }
    assert b.members[..|b.members|] == b.members;

    var cutA := Min([depth, |aCopy|]);
    var cutB := Min([depth, |bCopy|]);
    assert depth in [depth, |aCopy|] && |aCopy| in [depth, |aCopy|];
    assert depth in [depth, |bCopy|] && |bCopy| in [depth, |bCopy|];
    var aMembers := aCopy[..cutA];
    var bMembers := bCopy[..cutB];
    var intersect := Intersection(aMembers, bMembers);
    lenIntersect, lenA, lenB := |intersect|, |aMembers|, |bMembers|;
    if UniqueDomains(a.members) && UniqueDomains(b.members) {
      SharedWithinBoth(aMembers, bMembers);
    }
  }

  /** The shorter of the two SERPs first; `a` first when they are equally long. */
  function OrderByLength(a: SERP, b: SERP): (r: (SERP, SERP))
    ensures r.0.Length() <= r.1.Length()
    ensures (r.0 == a && r.1 == b) || (r.0 == b && r.1 == a)
    ensures a.Length() == b.Length() ==> r.0 == a
  {
    if a.Length() <= b.Length() then (a, b) else (b, a)
  }

  // ---------------------------------------------------------------------------
  // Agreement and overlap.

  /** n / m in floating point, as agreement divides its integer counts. */
  function Ratio(n: int, m: int): real
    requires m != 0
  {
    n as real / m as real
  }

  /** x scaled by an integer count, as overlap scales agreement. */
  function Scale(x: real, n: int): real
  {
    x * n as real
  }

  /**
    2·|shared| / (|A′| + |B′|) over the prefixes A′, B′ at `depth`: a fraction
    in [0, 1] whatever the lists hold, since every shared domain takes up at
    least two of the |A′| + |B′| positions. The Go code divides by zero when
    both prefixes are empty; that input is excluded.
  */
  function Agreement(a: SERP, b: SERP, depth: nat): (r: real)
    requires 0 < depth && 0 < a.Length() + b.Length()
    ensures 0.0 <= r <= 1.0
  {
    var pa, pb := Prefix(a.members, depth), Prefix(b.members, depth);
    SharedAtMostHalf(pa, pb);
    FractionAtMostOne(2 * |SharedDomains(pa, pb)|, |pa| + |pb|);
    Ratio(2 * |SharedDomains(pa, pb)|, |pa| + |pb|)
  }

  /**
    Agreement scaled by min(depth, |a|, |b|). Within both lists' lengths that
    is the number of domains the two prefixes share.
  */
  function Overlap(a: SERP, b: SERP, depth: nat): (r: real)
    requires 0 < depth && 0 < a.Length() + b.Length()
    ensures depth <= a.Length() && depth <= b.Length() ==>
      r == |SharedDomains(a.members[..depth], b.members[..depth])| as real
  {
    var k := Smaller(depth, Smaller(a.Length(), b.Length()));
    if depth <= a.Length() && depth <= b.Length() then
      HalfOfDouble(|SharedDomains(a.members[..depth], b.members[..depth])|, depth);
      Scale(Agreement(a, b, depth), k)
    else
      Scale(Agreement(a, b, depth), k)
  }

  /** 2n / (d + d), scaled back by d, is n. */
  lemma HalfOfDouble(n: nat, d: nat)
    requires 0 < d
    ensures Scale(Ratio(2 * n, d + d), d) == n as real
  {
    var q := (2 * n) as real / (d + d) as real;
    assert q * (d + d) as real == (2 * n) as real;
    assert (q * d as real) * 2.0 == (2 * n) as real;
  }

  // ---------------------------------------------------------------------------
  // Powers and the sums the three estimates accumulate.

  /** p to a natural power. */
  function Pow(p: real, n: nat): real
  {
    if n == 0 then 1.0 else Pow(p, n - 1) * p
  }

  lemma {:induction false} PowNonZero(p: real, n: nat)
    requires p != 0.0
    ensures Pow(p, n) != 0.0
  {
    if n > 0 {
      PowNonZero(p, n - 1);
    }
  }

  /** p to an integer power, negative exponents included, as math.Pow gives it. */
  function PowInt(p: real, n: int): real
    requires p != 0.0
  {
    if n >= 0 then Pow(p, n) else PowNonZero(p, -n); 1.0 / Pow(p, -n)
  }

  /** The least integer not below x. */
  function Ceil(x: real): (c: int)
    ensures x <= c as real < x + 1.0
  {
    if x.Floor as real == x then x.Floor else x.Floor + 1
  }

  /** p^d/d · x: a value at rank d, discounted as rboMin and rboRes weigh it. */
  function Discounted(p: real, d: nat, x: real): real
    requires 0 < d
  {
    Pow(p, d) / d as real * x
  }

  /** One step of the lower bound's sum: p^d/d · (overlap(d) − xk). */
  function LowerBoundTerm(a: SERP, b: SERP, p: real, xk: real, d: nat): real
    requires 0 < a.Length() && 0 < b.Length() && 0 < d
  {
    Discounted(p, d, Overlap(a, b, d) - xk)
  }

  /** Σ_{d=1}^{n} of the lower bound's steps. */
  function LowerBoundSum(a: SERP, b: SERP, p: real, xk: real, n: nat): real
    requires 0 < a.Length() && 0 < b.Length()
  {
    if n == 0 then 0.0 else LowerBoundSum(a, b, p, xk, n - 1) + LowerBoundTerm(a, b, p, xk, n)
  }

  /** One step of the residual bound's sums: p^d/d. */
  function HarmonicTerm(p: real, d: nat): real
    requires 0 < d
  {
    Pow(p, d) / d as real
  }

  /** Σ_{d=lo+1}^{hi} p^d/d (zero when hi ≤ lo). */
  function HarmonicSum(p: real, lo: nat, hi: int): real
    decreases hi - lo
  {
    if hi <= lo then 0.0 else HarmonicSum(p, lo, hi - 1) + HarmonicTerm(p, hi)
  }

  /** One step of the point estimate's first sum: p^d · agreement(d). */
  function AgreementTerm(a: SERP, b: SERP, p: real, d: nat): real
    requires 0 < a.Length() && 0 < b.Length() && 0 < d
  {
    Pow(p, d) * Agreement(a, b, d)
  }

  /** Σ_{d=1}^{n} p^d · agreement(d). */
  function AgreementSum(a: SERP, b: SERP, p: real, n: nat): real
    requires 0 < a.Length() && 0 < b.Length()
  {
    if n == 0 then 0.0 else AgreementSum(a, b, p, n - 1) + AgreementTerm(a, b, p, n)
  }

  /** One step of the point estimate's second sum: p^d · xs·(d−s)/s/d. */
  function TailTerm(p: real, xs: real, s: nat, d: nat): real
    requires 0 < s < d
  {
    Pow(p, d) * xs * (d - s) as real / s as real / d as real
  }

  /** Σ_{d=s+1}^{n} p^d · xs·(d−s)/s/d, the extrapolated tail beyond the shorter list. */
  function TailSum(p: real, xs: real, s: nat, n: nat): real
    requires 0 < s
  {
    if n <= s then 0.0 else TailSum(p, xs, s, n - 1) + TailTerm(p, xs, s, n)
  }

  // ---------------------------------------------------------------------------
  // The three estimates, as values.

  /** How rboMin combines its sum with the overlap xk at its depth and ln(1 − p). */
  function LowerBoundOf(p: real, sumTerm: real, xk: real, lnKeep: real): real
    requires p != 0.0
  {
    var logTerm := xk * lnKeep;
    (1.0 - p) / p * (sumTerm - logTerm)
  }

  /**
    How rboRes scales its three sums (over s < d ≤ f, l < d ≤ f and 0 < d ≤ f)
    and combines them with the lengths, the cut-off f, xl and ln(1/(1 − p)).
  */
  function ResidualOf(p: real, s: nat, l: nat, f: int, xl: real, sum1: real, sum2: real, sum3: real, lnInverse: real): real
    requires p != 0.0
  {
    var term1 := s as real * sum1;
    var term2 := l as real * sum2;
    var term3 := xl * lnInverse - sum3;
    Pow(p, s) + Pow(p, l) - PowInt(p, f) - (1.0 - p) / p * (term1 * term2 * term3)
  }

  /** How rboExt combines the lengths, the two overlaps and its two sums. */
  function PointEstimateOf(p: real, s: nat, l: nat, xs: real, xl: real, sum1: real, sum2: real): real
    requires p != 0.0 && 0 < s && 0 < l
  {
    var term1 := (1.0 - p) / p * (sum1 + sum2);
    var term2 := Pow(p, l) * ((xl - xs) / l as real + xs / s as real);
    term1 + term2
  }

  /** The depth rboMin works at: min(|a|, |b|) when asked for depth 0. */
  function EvaluationDepth(a: SERP, b: SERP, depth: nat): nat
  {
    if depth == 0 then Smaller(a.Length(), b.Length()) else depth
  }

  /** The tight lower bound at `depth` (min(|a|, |b|) when depth is 0). */
  function LowerBound(a: SERP, b: SERP, p: real, depth: nat, ln: real -> real): real
    requires 0 < a.Length() && 0 < b.Length() && p != 0.0
  {
    var k := EvaluationDepth(a, b, depth);
    var xk := Overlap(a, b, k);
    LowerBoundOf(p, LowerBoundSum(a, b, p, xk, k), xk, ln(1.0 - p))
  }

  /** The residual upper bound, with the product of the three partial sums as the source forms it. */
  function ResidualBound(a: SERP, b: SERP, p: real, ln: real -> real): real
    requires 0 < a.Length() && 0 < b.Length() && p != 0.0 && p != 1.0
  {
    var (S, L) := OrderByLength(a, b);
    var s, l := S.Length(), L.Length();
    var xl := Overlap(a, b, l);
    var f := Ceil(l as real + s as real - xl);
    ResidualOf(p, s, l, f, xl, HarmonicSum(p, s, f), HarmonicSum(p, l, f), HarmonicSum(p, 0, f), ln(1.0 / (1.0 - p)))
  }

  /** The point estimate, extrapolating the agreement seen at the shorter list's length. */
  function PointEstimate(a: SERP, b: SERP, p: real): real
    requires 0 < a.Length() && 0 < b.Length() && p != 0.0
  {
    var (S, L) := OrderByLength(a, b);
    var s, l := S.Length(), L.Length();
    var xs := Overlap(a, b, s);
    PointEstimateOf(p, s, l, xs, Overlap(a, b, l), AgreementSum(a, b, p, l), TailSum(p, xs, s, l))
  }

  // ---------------------------------------------------------------------------
  // The estimates as the Go code computes them, with accumulator loops.

  /** rboMin's loop: Σ_{d=1}^{k} p^d/d · (overlap(d) − xk). */
  method SumLowerBoundTerms(a: SERP, b: SERP, p: real, xk: real, k: nat) returns (sumTerm: real)
    requires 0 < a.Length() && 0 < b.Length()
    ensures sumTerm == LowerBoundSum(a, b, p, xk, k)
  {
    sumTerm := 0.0;
    var d := 1;
    while d < k + 1
      invariant 1 <= d <= k + 1
      invariant sumTerm == LowerBoundSum(a, b, p, xk, d - 1)
    {
      var val := LowerBoundTerm(a, b, p, xk, d);
      sumTerm := sumTerm + val;
      d := d + 1;
    }
    assert d - 1 == k;
  }

  /** Each of rboRes's three loops: Σ_{d=lo+1}^{hi} p^d/d, zero when hi ≤ lo. */
  method SumHarmonicTerms(p: real, lo: nat, hi: int) returns (sum: real)
    ensures sum == HarmonicSum(p, lo, hi)
  {
    sum := 0.0;
    var d := lo + 1;
    while d < hi + 1
      invariant lo + 1 <= d && (d <= hi + 1 || d == lo + 1)
      invariant sum == HarmonicSum(p, lo, d - 1)
    {
      sum := sum + HarmonicTerm(p, d);
      d := d + 1;
    }
    if hi <= lo {
      assert sum == 0.0;
    } else {
      assert d - 1 == hi;
    }
  }

  /** rboExt's first loop: Σ_{d=1}^{l} p^d · agreement(d). */
  method SumAgreementTerms(a: SERP, b: SERP, p: real, l: nat) returns (sum1: real)
    requires 0 < a.Length() && 0 < b.Length()
    ensures sum1 == AgreementSum(a, b, p, l)
  {
    sum1 := 0.0;
    var d := 1;
    while d < l + 1
      invariant 1 <= d <= l + 1
      invariant sum1 == AgreementSum(a, b, p, d - 1)
    {
      sum1 := sum1 + AgreementTerm(a, b, p, d);
      d := d + 1;
    }
    assert d - 1 == l;
  }

  /** rboExt's second loop: Σ_{d=s+1}^{l} p^d · xs·(d−s)/s/d. */
  method SumTailTerms(p: real, xs: real, s: nat, l: nat) returns (sum2: real)
    requires 0 < s
    ensures sum2 == TailSum(p, xs, s, l)
  {
    sum2 := 0.0;
    var d := s + 1;
    while d < l + 1
      invariant s + 1 <= d && (d <= l + 1 || d == s + 1)
      invariant sum2 == TailSum(p, xs, s, d - 1)
    {
      sum2 := sum2 + TailTerm(p, xs, s, d);
      d := d + 1;
    }
    if l <= s {
      assert sum2 == 0.0;
    } else {
      assert d - 1 == l;
    }
  }

  /** rboMin: the tight lower bound, at min(|a|, |b|) when depth is 0. */
  method RboMin(a: SERP, b: SERP, p: real, depth: nat, ln: real -> real) returns (r: real)
    requires 0 < a.Length() && 0 < b.Length() && p != 0.0
    ensures r == LowerBound(a, b, p, depth, ln)
  {
    var k := depth;
    if k == 0 {
      k := Min([a.Length(), b.Length()]);
      assert a.Length() in [a.Length(), b.Length()] && b.Length() in [a.Length(), b.Length()];
    }
    assert k == EvaluationDepth(a, b, depth);
    var xk := Overlap(a, b, k);
    var sumTerm := SumLowerBoundTerms(a, b, p, xk, k);
    r := LowerBoundOf(p, sumTerm, xk, ln(1.0 - p));
  }

  /** rboRes: the residual upper bound. */
  method RboRes(a: SERP, b: SERP, p: real, ln: real -> real) returns (r: real)
    requires 0 < a.Length() && 0 < b.Length() && p != 0.0 && p != 1.0
    ensures r == ResidualBound(a, b, p, ln)
  {
    var (S, L) := OrderByLength(a, b);
    var s, l := S.Length(), L.Length();
    var xl := Overlap(a, b, l);
    var f := Ceil(l as real + s as real - xl);
    var term1 := SumHarmonicTerms(p, s, f);
    var term2 := SumHarmonicTerms(p, l, f);
    var term3 := SumHarmonicTerms(p, 0, f);
    r := ResidualOf(p, s, l, f, xl, term1, term2, term3, ln(1.0 / (1.0 - p)));
  }

  /** rboExt: the point estimate. */
  method RboExt(a: SERP, b: SERP, p: real) returns (r: real)
    requires 0 < a.Length() && 0 < b.Length() && p != 0.0
    ensures r == PointEstimate(a, b, p)
  {
    var (S, L) := OrderByLength(a, b);
    var s, l := S.Length(), L.Length();
    var xl := Overlap(a, b, l);
    var xs := Overlap(a, b, s);
    var sum1 := SumAgreementTerms(a, b, p, l);
    var sum2 := SumTailTerms(p, xs, s, l);
    r := PointEstimateOf(p, s, l, xs, xl, sum1, sum2);
  }

  /** The error RBO reports for a persistence probability outside [0, 1]. */
  datatype ValidationError = PNotBetweenZeroAndOne

  /**
    The inputs on which RBO's point estimate is defined: both lists non-empty
    and 0 < p ≤ 1 (at p = 0 or with an empty list the Go code divides by zero;
    at p = 1 only its min and res are undefined).
  */
  predicate Computable(a: SERP, b: SERP, p: real)
  {
    0.0 < p <= 1.0 && 0 < a.Length() && 0 < b.Length()
  }

  /**
    Rank-biased overlap of two SERPs: an error exactly when p is outside
    [0, 1] (all three values then zero), otherwise the lower bound, the
    residual bound and the point estimate. At p = 1 the Go code's min and res
    are NaN (they take the logarithm of 0 and divide by 1 − p); the model
    promises nothing about them there.
  */
  method RBO(a: SERP, b: SERP, p: real, ln: real -> real) returns (min: real, res: real, ext: real, err: Option<ValidationError>)
    requires p < 0.0 || p > 1.0 || Computable(a, b, p)
    ensures err.Some? <==> p < 0.0 || p > 1.0
    ensures err.Some? ==> min == 0.0 && res == 0.0 && ext == 0.0
    ensures err.None? ==> ext == PointEstimate(a, b, p)
    ensures err.None? && p < 1.0 ==> min == LowerBound(a, b, p, 0, ln) && res == ResidualBound(a, b, p, ln)
  {
    if p < 0.0 || p > 1.0 {
      return 0.0, 0.0, 0.0, Some(PNotBetweenZeroAndOne);
    }
    min := RboMin(a, b, p, 0, ln);
    if p < 1.0 {
      res := RboRes(a, b, p, ln);
    } else {
      res := 0.0;
    }
    ext := RboExt(a, b, p);
    err := None;
  }

  // ---------------------------------------------------------------------------
  // Shared domains.

  lemma {:induction false} OccurrencesPositive(ms: seq<SERPMember>, d: string)
    ensures Occurrences(ms, d) > 0 <==> d in Domains(ms)
  {
    if ms != [] {
      var init := ms[..|ms| - 1];
      OccurrencesPositive(init, d);
      assert ms == init + [ms[|ms| - 1]];
      assert Domains(ms) == Domains(init) + {ms[|ms| - 1].domain};
    }
  }

  lemma {:induction false} OccurrencesAtMostOne(ms: seq<SERPMember>, d: string)
    requires UniqueDomains(ms)
    ensures Occurrences(ms, d) <= 1
  {
    if ms != [] {
      var init := ms[..|ms| - 1];
      OccurrencesAtMostOne(init, d);
      if ms[|ms| - 1].domain == d {
        OccurrencesPositive(init, d);
        LastDomainIsNew(ms);
      }
    }
  }

  /** For lists that behave as sets, intersection finds exactly the domains in both. */
  lemma SharedDomainsOfSets(a: seq<SERPMember>, b: seq<SERPMember>)
    requires UniqueDomains(a) && UniqueDomains(b)
    ensures SharedDomains(a, b) == Domains(a) * Domains(b)
  {
    forall d | d in Domains(a) + Domains(b)
      ensures d in SharedDomains(a, b) <==> d in Domains(a) * Domains(b)
    {
      OccurrencesPositive(a, d);
      OccurrencesPositive(b, d);
      OccurrencesAtMostOne(a, d);
      OccurrencesAtMostOne(b, d);
    }
  }

  lemma {:induction false} DomainsCardinality(ms: seq<SERPMember>)
    requires UniqueDomains(ms)
    ensures |Domains(ms)| == |ms|
  {
    if ms != [] {
      var init := ms[..|ms| - 1];
      var last := ms[|ms| - 1];
      DomainsCardinality(init);
      assert ms == init + [last];
      assert Domains(ms) == Domains(init) + {last.domain};
      LastDomainIsNew(ms);
    }
  }

  /** In a set-like list the last domain does not occur earlier. */
  lemma LastDomainIsNew(ms: seq<SERPMember>)
    requires UniqueDomains(ms) && ms != []
    ensures ms[|ms| - 1].domain !in Domains(ms[..|ms| - 1])
  {
    var init := ms[..|ms| - 1];
    forall i | 0 <= i < |init|
      ensures init[i].domain != ms[|ms| - 1].domain
    {
      assert init[i] == ms[i];
    }
    InDomains(init, ms[|ms| - 1].domain);
  }

  /** A domain is in the list's domains exactly when some member has it. */
  lemma {:induction false} InDomains(ms: seq<SERPMember>, d: string)
    ensures d in Domains(ms) <==> exists i :: 0 <= i < |ms| && ms[i].domain == d
  {
    if ms != [] {
      var init := ms[..|ms| - 1];
      InDomains(init, d);
      if exists i :: 0 <= i < |init| && init[i].domain == d {
        var i :| 0 <= i < |init| && init[i].domain == d;
        assert ms[i] == init[i];
      }
      if exists i :: 0 <= i < |ms| && ms[i].domain == d {
        var i :| 0 <= i < |ms| && ms[i].domain == d;
        if i < |init| {
          assert init[i] == ms[i];
        }
      }
    }
  }

  lemma SubsetCardinality(x: set<string>, y: set<string>)
    requires x <= y
    ensures |x| <= |y|
  {
    assert y == x + (y - x);
  }

  /** For set-like lists, the shared domains are no more than either list. */
  lemma SharedWithinBoth(a: seq<SERPMember>, b: seq<SERPMember>)
    requires UniqueDomains(a) && UniqueDomains(b)
    ensures |SharedDomains(a, b)| <= |a| && |SharedDomains(a, b)| <= |b|
  {
    SharedDomainsOfSets(a, b);
    DomainsCardinality(a);
    DomainsCardinality(b);
    SubsetCardinality(Domains(a) * Domains(b), Domains(a));
    SubsetCardinality(Domains(a) * Domains(b), Domains(b));
  }

  // ---------------------------------------------------------------------------
  // Agreement: bounds, symmetry, identical lists.

  /** A prefix of a set-like list is set-like. */
  lemma PrefixUnique(ms: seq<SERPMember>, depth: nat)
    requires UniqueDomains(ms)
    ensures UniqueDomains(Prefix(ms, depth))
  {
  }

  lemma FractionAtMostOne(n: nat, m: nat)
    requires 0 < m && n <= m
    ensures 0.0 <= Ratio(n, m) <= 1.0
  {
  }

  /** Counting over a concatenation adds the counts over its parts. */
  lemma {:induction false} OccurrencesConcat(a: seq<SERPMember>, b: seq<SERPMember>, d: string)
    ensures Occurrences(a + b, d) == Occurrences(a, d) + Occurrences(b, d)
  {
    if b != [] {
      var init := b[..|b| - 1];
      OccurrencesConcat(a, init, d);
      assert (a + b)[..|a + b| - 1] == a + init;
      assert (a + b)[|a + b| - 1] == b[|b| - 1];
    } else {
      assert a + b == a;
    }
  }

  /** The domains counted at least twice in one list. */
  function RepeatedIn(c: seq<SERPMember>): set<string>
  {
    set d | d in Domains(c) && Occurrences(c, d) >= 2
  }

  /**
    Each repeated domain takes two positions and each other domain one:
    |repeated| + |domains| never exceeds the length.
  */
  lemma {:induction false} RepeatedInBound(c: seq<SERPMember>)
    ensures |RepeatedIn(c)| + |Domains(c)| <= |c|
  {
    if c != [] {
      var init, x := c[..|c| - 1], c[|c| - 1].domain;
      RepeatedInBound(init);
      assert Domains(c) == Domains(init) + {x};
      OccurrencesPositive(init, x);
      if x !in Domains(init) {
        assert RepeatedIn(c) == RepeatedIn(init) by {
          forall d ensures d in RepeatedIn(c) <==> d in RepeatedIn(init) {
            OccurrencesPositive(init, d);
          }
        }
      } else if Occurrences(init, x) == 1 {
        assert x !in RepeatedIn(init);
        assert RepeatedIn(c) == RepeatedIn(init) + {x};
      } else {
        assert RepeatedIn(c) == RepeatedIn(init);
      }
    }
  }

  /** The domains intersection reports are those repeated in the two lists joined. */
  lemma SharedDomainsAsRepeated(a: seq<SERPMember>, b: seq<SERPMember>)
    ensures SharedDomains(a, b) == RepeatedIn(a + b)
  {
    forall d
      ensures d in SharedDomains(a, b) <==> d in RepeatedIn(a + b)
    {
      OccurrencesConcat(a, b, d);
      OccurrencesPositive(a, d);
      OccurrencesPositive(b, d);
      OccurrencesPositive(a + b, d);
    }
  }

  /** Whatever the lists hold, twice the shared count is at most their joint length. */
  lemma SharedAtMostHalf(a: seq<SERPMember>, b: seq<SERPMember>)
    ensures 2 * |SharedDomains(a, b)| <= |a| + |b|
  {
    SharedDomainsAsRepeated(a, b);
    RepeatedInBound(a + b);
    SubsetCardinality(RepeatedIn(a + b), Domains(a + b));
  }

  /** A prefix counts a domain no more often than the whole list. */
  lemma {:induction false} OccurrencesOfPrefix(ms: seq<SERPMember>, k: nat, d: string)
    requires k <= |ms|
    ensures Occurrences(ms[..k], d) <= Occurrences(ms, d)
  {
    if k < |ms| {
      var init := ms[..|ms| - 1];
      assert init[..k] == ms[..k];
      OccurrencesOfPrefix(init, k, d);
    } else {
      assert ms[..k] == ms;
    }
  }

  /** Within both lists' lengths, overlap never decreases as the depth grows. */
  lemma OverlapMonotone(a: SERP, b: SERP, d: nat, e: nat)
    requires 0 < d <= e && e <= a.Length() && e <= b.Length()
    ensures Overlap(a, b, d) <= Overlap(a, b, e)
  {
    var pa, pb := a.members[..d], b.members[..d];
    var qa, qb := a.members[..e], b.members[..e];
    forall x | x in SharedDomains(pa, pb)
      ensures x in SharedDomains(qa, qb)
    {
      assert qa[..d] == pa && qb[..d] == pb;
      OccurrencesOfPrefix(qa, d, x);
      OccurrencesOfPrefix(qb, d, x);
      OccurrencesPositive(qa, x);
      OccurrencesPositive(qb, x);
    }
    SubsetCardinality(SharedDomains(pa, pb), SharedDomains(qa, qb));
  }

  /** Counting at least twice over both lists does not depend on their order. */
  lemma SharedDomainsSymmetric(a: seq<SERPMember>, b: seq<SERPMember>)
    ensures SharedDomains(a, b) == SharedDomains(b, a)
  {
  }

  /** Agreement does not depend on which SERP comes first. */
  lemma AgreementSymmetric(a: SERP, b: SERP, depth: nat)
    requires 0 < depth && 0 < a.Length() + b.Length()
    ensures Agreement(a, b, depth) == Agreement(b, a, depth)
  {
    SharedDomainsSymmetric(Prefix(a.members, depth), Prefix(b.members, depth));
  }

  /** Overlap does not depend on which SERP comes first. */
  lemma OverlapSymmetric(a: SERP, b: SERP, depth: nat)
    requires 0 < depth && 0 < a.Length() + b.Length()
    ensures Overlap(a, b, depth) == Overlap(b, a, depth)
  {
    AgreementSymmetric(a, b, depth);
  }

  /** Every domain of a list occurs at least twice in the list taken twice. */
  lemma SharedDomainsWithItself(ms: seq<SERPMember>)
    ensures SharedDomains(ms, ms) == Domains(ms)
  {
    forall d | d in Domains(ms)
      ensures Occurrences(ms, d) >= 1
    {
      OccurrencesPositive(ms, d);
    }
  }

  /** Two SERPs listing the same set-like members agree fully at every depth, whatever their keywords. */
  lemma AgreementWithItself(a: SERP, b: SERP, depth: nat)
    requires 0 < depth && 0 < a.Length() && a.members == b.members
    requires UniqueDomains(a.members)
    ensures Agreement(a, b, depth) == 1.0
  {
    var pa := Prefix(a.members, depth);
    PrefixUnique(a.members, depth);
    SharedDomainsWithItself(pa);
    DomainsCardinality(pa);
    assert 0 < |pa|;
    assert |SharedDomains(pa, pa)| == |pa|;
    SelfRatio(2 * |pa|);
  }

  lemma SelfRatio(n: nat)
    requires 0 < n
    ensures n as real / n as real == 1.0
  {
  }

  /** Two SERPs listing the same set-like members overlap in min(depth, |a|) domains. */
  lemma OverlapWithItself(a: SERP, b: SERP, depth: nat)
    requires 0 < depth && 0 < a.Length() && a.members == b.members
    requires UniqueDomains(a.members)
    ensures Overlap(a, b, depth) == Smaller(depth, a.Length()) as real
  {
    AgreementWithItself(a, b, depth);
  }

  // ---------------------------------------------------------------------------
  // The three estimates do not depend on the order of the SERPs.

  lemma {:induction false} LowerBoundSumSymmetric(a: SERP, b: SERP, p: real, xk: real, n: nat)
    requires 0 < a.Length() && 0 < b.Length()
    ensures LowerBoundSum(a, b, p, xk, n) == LowerBoundSum(b, a, p, xk, n)
  {
    if n > 0 {
      LowerBoundSumSymmetric(a, b, p, xk, n - 1);
      LowerBoundTermSymmetric(a, b, p, xk, n);
    }
  }

  lemma LowerBoundTermSymmetric(a: SERP, b: SERP, p: real, xk: real, d: nat)
    requires 0 < a.Length() && 0 < b.Length() && 0 < d
    ensures LowerBoundTerm(a, b, p, xk, d) == LowerBoundTerm(b, a, p, xk, d)
  {
    OverlapSymmetric(a, b, d);
  }

  lemma {:induction false} AgreementSumSymmetric(a: SERP, b: SERP, p: real, n: nat)
    requires 0 < a.Length() && 0 < b.Length()
    ensures AgreementSum(a, b, p, n) == AgreementSum(b, a, p, n)
  {
    if n > 0 {
      AgreementSumSymmetric(a, b, p, n - 1);
      AgreementTermSymmetric(a, b, p, n);
    }
  }

  lemma AgreementTermSymmetric(a: SERP, b: SERP, p: real, d: nat)
    requires 0 < a.Length() && 0 < b.Length() && 0 < d
    ensures AgreementTerm(a, b, p, d) == AgreementTerm(b, a, p, d)
  {
    AgreementSymmetric(a, b, d);
  }

  /** Ordering by length yields the same two lengths whichever SERP is passed first. */
  lemma OrderByLengthSymmetric(a: SERP, b: SERP)
    ensures OrderByLength(a, b).0.Length() == OrderByLength(b, a).0.Length()
    ensures OrderByLength(a, b).1.Length() == OrderByLength(b, a).1.Length()
  {
  }

  lemma EvaluationDepthSymmetric(a: SERP, b: SERP, depth: nat)
    ensures EvaluationDepth(a, b, depth) == EvaluationDepth(b, a, depth)
  {
  }

  /** The lower bound does not depend on which SERP comes first. */
  lemma LowerBoundSymmetric(a: SERP, b: SERP, p: real, depth: nat, ln: real -> real)
    requires 0 < a.Length() && 0 < b.Length() && p != 0.0
    ensures LowerBound(a, b, p, depth, ln) == LowerBound(b, a, p, depth, ln)
  {
    EvaluationDepthSymmetric(a, b, depth);
    var k := EvaluationDepth(a, b, depth);
    OverlapSymmetric(a, b, k);
    LowerBoundSumSymmetric(a, b, p, Overlap(a, b, k), k);
  }

  /** The residual bound does not depend on which SERP comes first. */
  lemma ResidualBoundSymmetric(a: SERP, b: SERP, p: real, ln: real -> real)
    requires 0 < a.Length() && 0 < b.Length() && p != 0.0 && p != 1.0
    ensures ResidualBound(a, b, p, ln) == ResidualBound(b, a, p, ln)
  {
    OrderByLengthSymmetric(a, b);
    OverlapSymmetric(a, b, OrderByLength(a, b).1.Length());
  }

  /** The point estimate does not depend on which SERP comes first. */
  lemma PointEstimateSymmetric(a: SERP, b: SERP, p: real)
    requires 0 < a.Length() && 0 < b.Length() && p != 0.0
    ensures PointEstimate(a, b, p) == PointEstimate(b, a, p)
  {
    OrderByLengthSymmetric(a, b);
    var s, l := OrderByLength(a, b).0.Length(), OrderByLength(a, b).1.Length();
    OverlapSymmetric(a, b, s);
    OverlapSymmetric(a, b, l);
    AgreementSumSymmetric(a, b, p, l);
  }

  // ---------------------------------------------------------------------------
  // A SERP compared with itself.

  /** Σ_{d=1}^{n} p^d. */
  function GeometricSum(p: real, n: nat): real
  {
    if n == 0 then 0.0 else GeometricSum(p, n - 1) + Pow(p, n)
  }

  /** (1 − p)/p · Σ_{d=1}^{n} p^d = 1 − p^n: the weights the point estimate gives the first n ranks. */
  lemma {:induction false} GeometricSumClosedForm(p: real, n: nat)
    requires p != 0.0
    ensures (1.0 - p) / p * GeometricSum(p, n) == 1.0 - Pow(p, n)
  {
    if n > 0 {
      GeometricSumClosedForm(p, n - 1);
      var c, q := (1.0 - p) / p, Pow(p, n - 1);
      assert c * p == 1.0 - p;
      assert c * Pow(p, n) == (c * p) * q;
      assert c * GeometricSum(p, n) == c * GeometricSum(p, n - 1) + c * Pow(p, n);
    }
  }

  lemma {:induction false} AgreementSumWithItself(a: SERP, p: real, n: nat)
    requires 0 < a.Length() && UniqueDomains(a.members)
    ensures AgreementSum(a, a, p, n) == GeometricSum(p, n)
  {
    if n > 0 {
      AgreementSumWithItself(a, p, n - 1);
      AgreementWithItself(a, a, n);
    }
  }

  /** A set-like SERP compared with itself has point estimate exactly 1. */
  lemma PointEstimateWithItself(a: SERP, p: real)
    requires 0 < a.Length() && UniqueDomains(a.members) && p != 0.0
    ensures PointEstimate(a, a, p) == 1.0
  {
    var n := a.Length();
    OverlapWithItself(a, a, n);
    var x := Overlap(a, a, n);
    assert x == n as real;
    AgreementSumWithItself(a, p, n);
    GeometricSumClosedForm(p, n);
    assert TailSum(p, x, n, n) == 0.0;
    PointEstimateOfEqualLengths(p, n, x, AgreementSum(a, a, p, n));
  }

  /** With both lengths n and both overlaps n, the point estimate is (1 − p)/p · sum1 + p^n. */
  lemma PointEstimateOfEqualLengths(p: real, n: nat, x: real, sum1: real)
    requires p != 0.0 && 0 < n && x == n as real
    requires (1.0 - p) / p * sum1 == 1.0 - Pow(p, n)
    ensures PointEstimateOf(p, n, n, x, x, sum1, 0.0) == 1.0
  {
    assert (x - x) / n as real + x / n as real == 1.0;
    assert Pow(p, n) * ((x - x) / n as real + x / n as real) == Pow(p, n);
    assert (1.0 - p) / p * (sum1 + 0.0) == 1.0 - Pow(p, n);
  }

  // ---------------------------------------------------------------------------
  // The package's own test cases.

  /** The two SERPs of the agreement test: a b c d e against a b d c f. */
  const TestA := SERPMember("", 0, "a")
  const TestB := SERPMember("", 0, "b")
  const TestC := SERPMember("", 0, "c")
  const TestD := SERPMember("", 0, "d")
  const TestE := SERPMember("", 0, "e")
  const TestF := SERPMember("", 0, "f")
  const AgreementLeft := SERP("a", [TestA, TestB, TestC, TestD, TestE])
  const AgreementRight := SERP("b", [TestA, TestB, TestD, TestC, TestF])

  lemma DomainsStep(ms: seq<SERPMember>, k: nat)
    requires k < |ms|
    ensures Domains(ms[..k + 1]) == Domains(ms[..k]) + {ms[k].domain}
  {
    assert ms[..k + 1][..k] == ms[..k];
  }

  lemma LeftDomains()
    ensures Domains(AgreementLeft.members[..3]) == {"a", "b", "c"}
    ensures Domains(AgreementLeft.members[..4]) == {"a", "b", "c", "d"}
    ensures Domains(AgreementLeft.members) == {"a", "b", "c", "d", "e"}
  {
    var ms := AgreementLeft.members;
    DomainsStep(ms, 0);
    DomainsStep(ms, 1);
    DomainsStep(ms, 2);
    DomainsStep(ms, 3);
    DomainsStep(ms, 4);
    assert ms[..5] == ms;
  }

  lemma RightDomains()
    ensures Domains(AgreementRight.members[..3]) == {"a", "b", "d"}
    ensures Domains(AgreementRight.members[..4]) == {"a", "b", "c", "d"}
    ensures Domains(AgreementRight.members) == {"a", "b", "c", "d", "f"}
  {
    var ms := AgreementRight.members;
    DomainsStep(ms, 0);
    DomainsStep(ms, 1);
    DomainsStep(ms, 2);
    DomainsStep(ms, 3);
    DomainsStep(ms, 4);
    assert ms[..5] == ms;
  }

  lemma TestDomainSets()
    ensures {"a", "b", "c"} * {"a", "b", "d"} == {"a", "b"} && |{"a", "b"}| == 2
    ensures {"a", "b", "c", "d"} * {"a", "b", "c", "d"} == {"a", "b", "c", "d"} && |{"a", "b", "c", "d"}| == 4
    ensures {"a", "b", "c", "d", "e"} * {"a", "b", "c", "d", "f"} == {"a", "b", "c", "d"}
  {
  }

  lemma AgreementTestUnique()
    ensures UniqueDomains(AgreementLeft.members) && UniqueDomains(AgreementRight.members)
  {
  }

  lemma AgreementAtDepth1()
    ensures Agreement(AgreementLeft, AgreementRight, 1) == 1.0
  {
    var pa, pb := Prefix(AgreementLeft.members, 1), Prefix(AgreementRight.members, 1);
    assert pa == [TestA] == pb;
    SharedDomainsWithItself(pa);
  }

  /** The shared domains of the agreement test's prefixes: two at depth 3, four at depths 4 and 5. */
  lemma AgreementTestShared()
    ensures |SharedDomains(AgreementLeft.members[..3], AgreementRight.members[..3])| == 2
    ensures |SharedDomains(AgreementLeft.members[..4], AgreementRight.members[..4])| == 4
    ensures |SharedDomains(AgreementLeft.members, AgreementRight.members)| == 4
  {
    var a, b := AgreementLeft.members, AgreementRight.members;
    LeftDomains();
    RightDomains();
    AgreementTestUnique();
    PrefixUnique(a, 3);
    PrefixUnique(b, 3);
    PrefixUnique(a, 4);
    PrefixUnique(b, 4);
    assert Prefix(a, 3) == a[..3] && Prefix(b, 3) == b[..3];
    assert Prefix(a, 4) == a[..4] && Prefix(b, 4) == b[..4];
    SharedDomainsOfSets(a[..3], b[..3]);
    SharedDomainsOfSets(a[..4], b[..4]);
    SharedDomainsOfSets(a, b);
    TestDomainSets();
  }

  /** The agreement test's expected values: 1 at depth 1, 2/3 at depth 3, 1 at depth 4 and 0.8 at depth 5. */
  lemma AgreementTestCases()
    ensures Agreement(AgreementLeft, AgreementRight, 1) == 1.0
    ensures Agreement(AgreementLeft, AgreementRight, 3) == 2.0 / 3.0
    ensures Agreement(AgreementLeft, AgreementRight, 4) == 1.0
    ensures Agreement(AgreementLeft, AgreementRight, 5) == 0.8
  {
    var a, b := AgreementLeft.members, AgreementRight.members;
    AgreementAtDepth1();
    AgreementTestShared();
    assert Prefix(a, 3) == a[..3] && Prefix(b, 3) == b[..3];
    assert Prefix(a, 4) == a[..4] && Prefix(b, 4) == b[..4];
    assert Prefix(a, 5) == a && Prefix(b, 5) == b;
    assert Ratio(2 * 2, 3 + 3) == 2.0 / 3.0;
    assert Ratio(2 * 4, 4 + 4) == 1.0;
    assert Ratio(2 * 4, 5 + 5) == 0.8;
  }

  /** The overlap test: two SERPs with different keywords and the members a b c d. */
  const OverlapLeft := SERP("a", [TestA, TestB, TestC, TestD])
  const OverlapRight := SERP("b", [TestA, TestB, TestC, TestD])

  /** The overlap test's expected values: 3 at depth 3, and 4 at depth 5, past the end of both lists. */
  lemma OverlapTestCases()
    ensures Overlap(OverlapLeft, OverlapRight, 3) == 3.0
    ensures Overlap(OverlapLeft, OverlapRight, 5) == 4.0
  {
    assert UniqueDomains(OverlapLeft.members);
    OverlapWithItself(OverlapLeft, OverlapRight, 3);
    OverlapWithItself(OverlapLeft, OverlapRight, 5);
  }

  /** The intersection test: one two three against two three four. */
  const One := SERPMember("", 0, "one")
  const Two := SERPMember("", 0, "two")
  const Three := SERPMember("", 0, "three")
  const Four := SERPMember("", 0, "four")

  lemma IntersectionTestCase()
    ensures SharedDomains([One, Two, Three], [Two, Three, Four]) == {"two", "three"}
  {
    var a, b := [One, Two, Three], [Two, Three, Four];
    DomainsStep(a, 0);
    DomainsStep(a, 1);
    DomainsStep(a, 2);
    DomainsStep(b, 0);
    DomainsStep(b, 1);
    DomainsStep(b, 2);
    assert a[..3] == a && b[..3] == b;
    SharedDomainsOfSets(a, b);
  }

  /** The intersection test run through the method: two entries, each "two" or "three". */
  method IntersectionTest() returns (domains: seq<string>)
    ensures |domains| == 2
    ensures forall d :: d in domains ==> d == "two" || d == "three"
  {
    domains := Intersection([One, Two, Three], [Two, Three, Four]);
    IntersectionTestCase();
  }

  /** The min test: ascending and descending, positive and negative inputs. */
  method MinTest() returns (m1: int, m2: int, m3: int, m4: int)
    ensures m1 == 1 && m2 == 1 && m3 == -5 && m4 == -5
  {
    var ascending, descending := [1, 2, 3, 4, 5], [5, 4, 3, 2, 1];
    var negDescending, negAscending := [-1, -2, -3, -4, -5], [-5, -4, -3, -2, -1];
    m1 := Min(ascending);
    assert 1 in ascending;
    m2 := Min(descending);
    assert 1 in descending;
    m3 := Min(negDescending);
    assert -5 in negDescending;
    m4 := Min(negAscending);
    assert -5 in negAscending;
  }
}

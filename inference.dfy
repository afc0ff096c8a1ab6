/** Top-p (nucleus) sampling, `SampleTopP` in src/inference.cc: keep the tokens whose
    probability reaches a cutoff, sort them by decreasing probability, take the shortest prefix
    whose mass reaches p, and pick from that prefix by walking its cumulative distribution with a
    uniform draw.  The draw is a parameter here. */
module Sampling {
  import opened Tensors
  import opened ModelCommon

  /** An element of `sorted`: the probability and the token index it belongs to. */
  datatype Candidate = Candidate(probability: real, index: nat)

  /** cutoff = (1 - p) / (N - 1) (src/inference.cc:16). */
  function Cutoff(n: nat, p: real): real
    requires n > 1
  {
    (1.0 - p) / ((n - 1) as real)
  }

  // ----- the candidate list -----

  /** The pairs the filter loop pushes, in the order it pushes them: (probabilities[i], i) for
      every i whose probability reaches the cutoff. */
  function Candidates(probabilities: seq<real>, cutoff: real): seq<Candidate>
    decreases |probabilities|
  {
    if |probabilities| == 0 then []
    else
      var last := |probabilities| - 1;
      var front := Candidates(probabilities[..last], cutoff);
      if probabilities[last] >= cutoff then front + [Candidate(probabilities[last], last)] else front
  }

  /** A pair is a candidate exactly when it is (probabilities[i], i) for an i that reaches the
      cutoff. */
  lemma {:induction false} CandidatesExact(probabilities: seq<real>, cutoff: real, c: Candidate)
    ensures c in Candidates(probabilities, cutoff) <==>
      c.index < |probabilities| && c.probability == probabilities[c.index] && probabilities[c.index] >= cutoff
    decreases |probabilities|
  {
    if |probabilities| > 0 {
      var last := |probabilities| - 1;
      CandidatesExact(probabilities[..last], cutoff, c);
    }
  }

  /** Candidates are in increasing index order, so each token appears at most once. */
  lemma {:induction false} CandidatesIncreasing(probabilities: seq<real>, cutoff: real)
    ensures var cs := Candidates(probabilities, cutoff);
      forall i, j :: 0 <= i < j < |cs| ==> cs[i].index < cs[j].index
    decreases |probabilities|
  {
    if |probabilities| > 0 {
      var last := |probabilities| - 1;
      var front := Candidates(probabilities[..last], cutoff);
      CandidatesIncreasing(probabilities[..last], cutoff);
      forall i | 0 <= i < |front| ensures front[i].index < last {
        CandidatesExact(probabilities[..last], cutoff, front[i]);
      }
      if probabilities[last] >= cutoff {
        var cs := front + [Candidate(probabilities[last], last)];
        assert forall i :: 0 <= i < |front| ==> cs[i] == front[i];
      }
    }
  }

  /** The filter loop (src/inference.cc:18-22). */
  method FilterCandidates(probabilities: seq<real>, cutoff: real) returns (sorted: seq<Candidate>)
    ensures sorted == Candidates(probabilities, cutoff)
  {
    sorted := [];
    for i := 0 to |probabilities|
      invariant sorted == Candidates(probabilities[..i], cutoff)
    {
      assert probabilities[..i + 1][..i] == probabilities[..i];
      if probabilities[i] >= cutoff {
        sorted := sorted + [Candidate(probabilities[i], i)];
      }
    }
    assert probabilities[..|probabilities|] == probabilities;
  }

  // ----- sorting -----

  /** Ordered by decreasing probability, the order the comparison a.first > b.first asks for. */
  ghost predicate NonIncreasing(s: seq<Candidate>) {
    forall i, j :: 0 <= i < j < |s| ==> s[i].probability >= s[j].probability
  }

  /** c inserted in front of the first element of smaller probability. */
  function Insert(c: Candidate, s: seq<Candidate>): (r: seq<Candidate>)
    requires NonIncreasing(s)
    ensures NonIncreasing(r) && multiset(r) == multiset(s) + multiset{c}
    decreases |s|
  {
    if |s| == 0 then [c]
    else if c.probability >= s[0].probability then [c] + s
    else
      var rest := Insert(c, s[1..]);
      InsertBehind(c, s, rest);
      [s[0]] + rest
  }

  /** When c goes behind the head of s, the head stays in front of the tail with c inserted. */
  lemma InsertBehind(c: Candidate, s: seq<Candidate>, rest: seq<Candidate>)
    requires NonIncreasing(s) && |s| > 0 && c.probability < s[0].probability
    requires NonIncreasing(rest) && multiset(rest) == multiset(s[1..]) + multiset{c}
    ensures NonIncreasing([s[0]] + rest) && multiset([s[0]] + rest) == multiset(s) + multiset{c}
  {
    assert s == [s[0]] + s[1..];
    forall x | x in rest ensures x.probability <= s[0].probability {
      assert x in multiset(rest);
    }
    var r := [s[0]] + rest;
    forall i, j | 0 <= i < j < |r| ensures r[i].probability >= r[j].probability {
      assert r[j] == rest[j - 1] && r[j] in rest;
      if i > 0 {
        assert r[i] == rest[i - 1];
      }
    }
  }

  /** `std::sort` with the descending comparison (src/inference.cc:23-25): a permutation of the
      candidates in non-increasing probability order. */
  function SortDescending(s: seq<Candidate>): (r: seq<Candidate>)
    ensures NonIncreasing(r) && multiset(r) == multiset(s)
    decreases |s|
  {
    if |s| == 0 then []
    else
      assert s == [s[0]] + s[1..];
      Insert(s[0], SortDescending(s[1..]))
  }

  // ----- prefix masses -----

  /** Σ of the probabilities of s, accumulated from the front as the two loops do. */
  function Mass(s: seq<Candidate>): real
    decreases |s|
  {
    if |s| == 0 then 0.0 else Mass(s[..|s| - 1]) + s[|s| - 1].probability
  }

  /** The mass of the prefix that ends at position j. */
  function Through(s: seq<Candidate>, j: nat): real
    requires j < |s|
  {
    Mass(s[..j + 1])
  }

  lemma MassStep(s: seq<Candidate>, i: nat)
    requires i < |s|
    ensures Through(s, i) == Mass(s[..i]) + s[i].probability
  {
    assert s[..i + 1][..i] == s[..i];
  }

  /** With no negative probability, a longer prefix has at least the mass of a shorter one. */
  lemma {:induction false} MassMonotone(s: seq<Candidate>, i: nat, j: nat)
    requires i <= j <= |s| && forall k :: 0 <= k < |s| ==> s[k].probability >= 0.0
    ensures Mass(s[..i]) <= Mass(s[..j])
    decreases j - i
  {
    if i < j {
      MassMonotone(s, i, j - 1);
      MassStep(s, j - 1);
    }
  }

  // ----- the nucleus -----

  /** The first position from `i` on whose prefix mass reaches p, or the last position. */
  function NucleusFrom(s: seq<Candidate>, p: real, i: nat): (k: nat)
    requires i < |s|
    ensures i <= k < |s|
    decreases |s| - i
  {
    if Through(s, i) >= p || i == |s| - 1 then i else NucleusFrom(s, p, i + 1)
  }

  /** `index` after the total loop: the first position whose prefix mass reaches p, else the
      last position. */
  function NucleusEnd(s: seq<Candidate>, p: real): (k: nat)
    requires |s| > 0
    ensures k < |s|
  {
    NucleusFrom(s, p, 0)
  }

  lemma {:induction false} NucleusFromIsFirst(s: seq<Candidate>, p: real, i: nat)
    requires i < |s|
    ensures var k := NucleusFrom(s, p, i);
      (forall j :: i <= j < k ==> Through(s, j) < p) && (Through(s, k) >= p || k == |s| - 1)
    decreases |s| - i
  {
    if !(Through(s, i) >= p || i == |s| - 1) {
      NucleusFromIsFirst(s, p, i + 1);
    }
  }

  /** The nucleus is the shortest prefix whose mass reaches p: every shorter prefix falls short,
      and it reaches p unless it is the whole list. */
  lemma NucleusIsShortest(s: seq<Candidate>, p: real)
    requires |s| > 0
    ensures var k := NucleusEnd(s, p);
      k < |s| && (forall j :: 0 <= j < k ==> Through(s, j) < p) && (Through(s, k) >= p || k == |s| - 1)
  {
    NucleusFromIsFirst(s, p, 0);
  }

  /** The total loop (src/inference.cc:29-37), with its `break`. */
  method Nucleus(sorted: seq<Candidate>, p: real) returns (index: nat, total: real)
    requires |sorted| > 0
    ensures index == NucleusEnd(sorted, p) && total == Through(sorted, index)
  {
    total := 0.0;
    index := |sorted| - 1;
    var i := 0;
    while i < |sorted|
      invariant i <= |sorted| && total == Mass(sorted[..i])
      invariant i < |sorted| ==> NucleusFrom(sorted, p, i) == NucleusEnd(sorted, p)
      invariant i == |sorted| ==> NucleusEnd(sorted, p) == |sorted| - 1
    {
      MassStep(sorted, i);
      total := total + sorted[i].probability;
      if total >= p {
        index := i;
        break;
      }
      i := i + 1;
    }
    if i == |sorted| {
      assert sorted[..|sorted|] == sorted;
    }
  }

  // ----- the cumulative distribution walk -----

  /** The first position from `i` up to `last` whose prefix mass exceeds r, else `last`. */
  function PickFrom(s: seq<Candidate>, last: nat, r: real, i: nat): (k: nat)
    requires last < |s| && i <= last
    ensures i <= k <= last
    decreases last - i
  {
    if r < Through(s, i) || i == last then i else PickFrom(s, last, r, i + 1)
  }

  /** The position the cdf loop returns from. */
  function Pick(s: seq<Candidate>, last: nat, r: real): (k: nat)
    requires last < |s|
    ensures k <= last
  {
    PickFrom(s, last, r, 0)
  }

  lemma {:induction false} PickFromIsFirst(s: seq<Candidate>, last: nat, r: real, i: nat)
    requires last < |s| && i <= last
    ensures var k := PickFrom(s, last, r, i);
      (forall j :: i <= j < k ==> r >= Through(s, j)) && (r < Through(s, k) || k == last)
    decreases last - i
  {
    if !(r < Through(s, i) || i == last) {
      PickFromIsFirst(s, last, r, i + 1);
    }
  }

  /** The cdf loop (src/inference.cc:46-53) with its early return and its fallback. */
  method Draw(sorted: seq<Candidate>, index: nat, r: real) returns (token: nat)
    requires index < |sorted|
    ensures token == sorted[Pick(sorted, index, r)].index
  {
    var cdf := 0.0;
    for i := 0 to index + 1
      invariant cdf == Mass(sorted[..i])
      invariant i <= index ==> PickFrom(sorted, index, r, i) == Pick(sorted, index, r)
      invariant i == index + 1 ==> Pick(sorted, index, r) == index
    {
      MassStep(sorted, i);
      cdf := cdf + sorted[i].probability;
      if r < cdf {
        return sorted[i].index;
      }
    }
    return sorted[index].index;
  }

  /** Inverse transform sampling: for 0 <= r < total, with no negative probability, the walk
      returns position i exactly when the prefix mass before i is at most r and the prefix
      mass through i exceeds it.  The fallback return is then never taken. */
  lemma InverseCdf(s: seq<Candidate>, last: nat, r: real, i: nat)
    requires last < |s| && i <= last && forall k :: 0 <= k < |s| ==> s[k].probability >= 0.0
    requires 0.0 <= r < Through(s, last)
    ensures Pick(s, last, r) == i <==> Mass(s[..i]) <= r < Through(s, i)
  {
    var k := Pick(s, last, r);
    PickFromIsFirst(s, last, r, 0);
    // The walk stops inside the nucleus, at a position whose prefix mass exceeds r.
    assert r < Through(s, k);
    if k > 0 {
      assert r >= Through(s, k - 1);
    } else {
      assert s[..0] == [];
    }
    if Mass(s[..i]) <= r < Through(s, i) && k < i {
      // A position before i cannot stop the walk: its prefix mass is at most r.
      MassMonotone(s, k + 1, i);
    }
  }

  /** A candidate of probability 0 is never drawn when r lies in [0, total). */
  lemma DrawnCandidateIsPositive(s: seq<Candidate>, last: nat, r: real)
    requires last < |s| && forall k :: 0 <= k < |s| ==> s[k].probability >= 0.0
    requires 0.0 <= r < Through(s, last)
    ensures s[Pick(s, last, r)].probability > 0.0
  {
    var k := Pick(s, last, r);
    InverseCdf(s, last, r, k);
    MassStep(s, k);
  }

  // ----- SampleTopP -----

  /** The total of the nucleus loop: the mass of the nucleus. */
  function NucleusMass(s: seq<Candidate>, p: real): real
    requires |s| > 0
  {
    Through(s, NucleusEnd(s, p))
  }

  /** The position the cdf walk stops at for the draw `random`: it walks the nucleus with
      r = random * total. */
  function Drawn(s: seq<Candidate>, p: real, random: real): (k: nat)
    requires |s| > 0
    ensures k <= NucleusEnd(s, p)
  {
    Pick(s, NucleusEnd(s, p), random * NucleusMass(s, p))
  }

  /** The candidate the draw picks from a sorted list; always one of the list's elements. */
  function Chosen(sorted: seq<Candidate>, p: real, random: real): (c: Candidate)
    requires |sorted| > 0
    ensures c in multiset(sorted)
  {
    sorted[Drawn(sorted, p, random)]
  }

  /** What `SampleTopP` returns for the draw `random`, once there are candidates. */
  function TopP(probabilities: seq<real>, p: real, random: real): nat
    requires |probabilities| > 2 && Candidates(probabilities, Cutoff(|probabilities|, p)) != []
  {
    Chosen(SortDescending(Candidates(probabilities, Cutoff(|probabilities|, p))), p, random).index
  }

  /** `SampleTopP` (src/inference.cc:11-54), with the uniform draw passed in.  CHECK_GT aborts
      when no probability reaches the cutoff. */
  method SampleTopP(probabilities: seq<real>, p: real, random: real) returns (r: Checked<nat>)
    requires |probabilities| > 2
    ensures r.Abort? <==> Candidates(probabilities, Cutoff(|probabilities|, p)) == []
    ensures r.Ok? ==> r.value == TopP(probabilities, p, random)
  {
    var cutoff := Cutoff(|probabilities|, p);
    var sorted := FilterCandidates(probabilities, cutoff);
    ghost var candidates := sorted;
    sorted := SortDescending(sorted);
    assert |sorted| == |multiset(sorted)| == |multiset(candidates)| == |candidates|;
    if |sorted| == 0 {
      return Abort("CHECK_GT(sorted.size(), 0)");
    }
    var index, total := Nucleus(sorted, p);
    var token := Draw(sorted, index, random * total);
    DrawIsChosen(sorted, p, random, index, total, token);
    r := Ok(token);
  }

  lemma DrawIsChosen(sorted: seq<Candidate>, p: real, random: real, index: nat, total: real, token: nat)
    requires |sorted| > 0 && index == NucleusEnd(sorted, p) && total == Through(sorted, index)
    requires token == sorted[Pick(sorted, index, random * total)].index
    ensures token == Chosen(sorted, p, random).index
  {
    assert random * total == random * NucleusMass(sorted, p);
  }

  /** The sampled token is a real token whose probability reaches the cutoff. */
  lemma SampledTokenPassesCutoff(probabilities: seq<real>, p: real, random: real)
    requires |probabilities| > 2 && Candidates(probabilities, Cutoff(|probabilities|, p)) != []
    ensures TopP(probabilities, p, random) < |probabilities|
    ensures probabilities[TopP(probabilities, p, random)] >= Cutoff(|probabilities|, p)
  {
    var cutoff := Cutoff(|probabilities|, p);
    CandidatesExact(probabilities, cutoff, Chosen(SortDescending(Candidates(probabilities, cutoff)), p, random));
  }

  /** For p < 1 the cutoff is positive, and so is every candidate's probability. */
  lemma CandidatesPositive(probabilities: seq<real>, p: real, s: seq<Candidate>)
    requires |probabilities| > 2 && p < 1.0
    requires multiset(s) == multiset(Candidates(probabilities, Cutoff(|probabilities|, p)))
    ensures forall k :: 0 <= k < |s| ==> s[k].probability > 0.0
  {
    var cutoff := Cutoff(|probabilities|, p);
    assert cutoff > 0.0;
    forall k | 0 <= k < |s| ensures s[k].probability > 0.0 {
      assert s[k] in multiset(s);
      CandidatesExact(probabilities, cutoff, s[k]);
    }
  }

  /** Every candidate's probability is at least the cutoff, which is not negative for p <= 1. */
  lemma CandidatesNonnegative(probabilities: seq<real>, p: real, s: seq<Candidate>)
    requires |probabilities| > 2 && p <= 1.0
    requires multiset(s) == multiset(Candidates(probabilities, Cutoff(|probabilities|, p)))
    ensures forall k :: 0 <= k < |s| ==> s[k].probability >= 0.0
  {
    forall k | 0 <= k < |s| ensures s[k].probability >= 0.0 {
      assert s[k] in multiset(s);
      CandidatesExact(probabilities, Cutoff(|probabilities|, p), s[k]);
    }
  }

  /** On a list with no negative probability and a positive first one, a draw in [0, 1)
      scaled by the nucleus mass follows the cumulative distribution of the nucleus: position i
      is drawn exactly when random * total falls into [mass before i, mass through i). */
  lemma NucleusCdf(s: seq<Candidate>, p: real, random: real, i: nat)
    requires |s| > 0 && s[0].probability > 0.0 && forall k :: 0 <= k < |s| ==> s[k].probability >= 0.0
    requires 0.0 <= random < 1.0
    ensures NucleusMass(s, p) > 0.0
    ensures i <= NucleusEnd(s, p) ==>
      (Drawn(s, p, random) == i <==> Mass(s[..i]) <= random * NucleusMass(s, p) < Through(s, i))
  {
    var r := random * NucleusMass(s, p);
    assert Drawn(s, p, random) == Pick(s, NucleusEnd(s, p), r);
    NucleusMassPositive(s, p);
    ScaleBelow(random, NucleusMass(s, p));
    if i <= NucleusEnd(s, p) {
      InverseCdf(s, NucleusEnd(s, p), r, i);
    }
  }

  /** The nucleus reaches at least its first element, so its mass is positive when that
      element's probability is. */
  lemma NucleusMassPositive(s: seq<Candidate>, p: real)
    requires |s| > 0 && s[0].probability > 0.0 && forall k :: 0 <= k < |s| ==> s[k].probability >= 0.0
    ensures NucleusMass(s, p) > 0.0
  {
    MassStep(s, 0);
    assert s[..0] == [];
    MassMonotone(s, 1, NucleusEnd(s, p) + 1);
  }

  lemma ScaleBelow(random: real, total: real)
    requires 0.0 <= random < 1.0 && total > 0.0
    ensures 0.0 <= random * total < total
  {
    ScaleUp(1.0, random, total);
  }

  /** For p < 1 and a draw in [0, 1) `SampleTopP` follows the cumulative distribution of the
      nucleus of the sorted candidates, whose mass is positive. */
  lemma DrawFollowsCdf(probabilities: seq<real>, p: real, random: real, sorted: seq<Candidate>, i: nat)
    requires |probabilities| > 2 && p < 1.0 && 0.0 <= random < 1.0
    requires sorted == SortDescending(Candidates(probabilities, Cutoff(|probabilities|, p))) && sorted != []
    ensures NucleusMass(sorted, p) > 0.0
    ensures i <= NucleusEnd(sorted, p) ==>
      (Drawn(sorted, p, random) == i <==> Mass(sorted[..i]) <= random * NucleusMass(sorted, p) < Through(sorted, i))
  {
    CandidatesPositive(probabilities, p, sorted);
    NucleusCdf(sorted, p, random, i);
  }

  /** If every element is below c, the sum is below |s| * c. */
  lemma {:induction false} SumBelow(s: seq<real>, c: real)
    requires |s| > 0 && forall i :: 0 <= i < |s| ==> s[i] < c
    ensures Sum(s) < (|s| as real) * c
    decreases |s|
  {
    if |s| > 1 {
      SumBelow(s[..|s| - 1], c);
    } else {
      assert s[..0] == [];
    }
  }

  /** The check cannot fail on a probability distribution once p * N >= 1: the largest
      probability is at least 1 / N, which is at least the cutoff. */
  lemma DistributionHasCandidates(probabilities: seq<real>, p: real)
    requires |probabilities| > 2 && p * (|probabilities| as real) >= 1.0
    requires Sum(probabilities) == 1.0
    ensures Candidates(probabilities, Cutoff(|probabilities|, p)) != []
  {
    var (n, cutoff) := (|probabilities| as real, Cutoff(|probabilities|, p));
    if forall i :: 0 <= i < |probabilities| ==> probabilities[i] < cutoff {
      SumBelow(probabilities, cutoff);
      assert false;
    } else {
      var i :| 0 <= i < |probabilities| && probabilities[i] >= cutoff;
      CandidatesExact(probabilities, cutoff, Candidate(probabilities[i], i));
    }
  }

  lemma ScaleUp(a: real, b: real, c: real)
    requires a > b && c > 0.0
    ensures a * c > b * c
  {
  }

  /** A worked case: for [0.7, 0.2, 0.05, 0.05] and p = 0.8 the cutoff 0.2 / 3 removes both
      0.05 entries, the nucleus is {0.7, 0.2} with mass 0.9, and token 0 is drawn exactly when
      random < 7/9, token 1 otherwise. */
  lemma NucleusOfFourTokens(random: real)
    ensures Candidates([0.7, 0.2, 0.05, 0.05], Cutoff(4, 0.8)) != []
    ensures TopP([0.7, 0.2, 0.05, 0.05], 0.8, random) == if random < 7.0 / 9.0 then 0 else 1
  {
    var sorted := [Candidate(0.7, 0), Candidate(0.2, 1)];
    FourTokenCandidates();
    TwoCandidatesSorted();
    TwoCandidatesNucleus();
    TwoCandidatesPick(random);
    assert Drawn(sorted, 0.8, random) == Pick(sorted, 1, random * 0.9);
  }

  /** The filter keeps the first two tokens of the worked case. */
  lemma FourTokenCandidates()
    ensures Candidates([0.7, 0.2, 0.05, 0.05], Cutoff(4, 0.8)) == [Candidate(0.7, 0), Candidate(0.2, 1)]
  {
    var probabilities := [0.7, 0.2, 0.05, 0.05];
    var cutoff := Cutoff(4, 0.8);
    assert cutoff == 0.2 / 3.0;
    var (c0, c1) := (Candidate(0.7, 0), Candidate(0.2, 1));
    assert [0.7][..0] == [];
    assert Candidates([0.7], cutoff) == [c0];
    assert [0.7, 0.2][..1] == [0.7];
    assert Candidates([0.7, 0.2], cutoff) == [c0, c1];
    assert [0.7, 0.2, 0.05][..2] == [0.7, 0.2];
    assert Candidates([0.7, 0.2, 0.05], cutoff) == [c0, c1];
    assert probabilities[..3] == [0.7, 0.2, 0.05];
  }

  /** The two candidates are already in descending order. */
  lemma TwoCandidatesSorted()
    ensures SortDescending([Candidate(0.7, 0), Candidate(0.2, 1)]) == [Candidate(0.7, 0), Candidate(0.2, 1)]
  {
    var (c0, c1) := (Candidate(0.7, 0), Candidate(0.2, 1));
    assert [c0, c1][1..] == [c1];
    assert SortDescending([c1]) == Insert(c1, SortDescending([]));
  }

  /** Their masses are 0.7 and 0.9, so the nucleus for p = 0.8 ends at the second. */
  lemma TwoCandidatesNucleus()
    ensures var sorted := [Candidate(0.7, 0), Candidate(0.2, 1)];
      Through(sorted, 0) == 0.7 && NucleusEnd(sorted, 0.8) == 1 && NucleusMass(sorted, 0.8) == 0.9
  {
    var sorted := [Candidate(0.7, 0), Candidate(0.2, 1)];
    assert sorted[..1] == [sorted[0]] && sorted[..2] == sorted;
    assert [sorted[0]][..0] == [];
    assert Mass([sorted[0]]) == 0.7;
    assert Through(sorted, 1) == 0.9;
  }

  /** The walk over the nucleus stops at the first candidate exactly when random * 0.9 < 0.7. */
  lemma TwoCandidatesPick(random: real)
    requires Through([Candidate(0.7, 0), Candidate(0.2, 1)], 0) == 0.7
    ensures Pick([Candidate(0.7, 0), Candidate(0.2, 1)], 1, random * 0.9) == if random < 7.0 / 9.0 then 0 else 1
  {
    assert random * 0.9 < 0.7 <==> random < 7.0 / 9.0;
  }

  /** For a small enough p the check does fail: three equal probabilities and p = 0 give the
      cutoff 1/2, which none of them reaches. */
  lemma EqualThirdsWithZeroPAbort()
    ensures Candidates([1.0 / 3.0, 1.0 / 3.0, 1.0 / 3.0], Cutoff(3, 0.0)) == []
  {
    var s := [1.0 / 3.0, 1.0 / 3.0, 1.0 / 3.0];
    assert Cutoff(3, 0.0) == 0.5;
    assert s[..2][..1][..0] == [];
    assert Candidates(s[..2][..1][..0], 0.5) == [];
    assert Candidates(s[..2][..1], 0.5) == [];
    assert Candidates(s[..2], 0.5) == [];
  }
}

/** Slug candidates (apps/products/services.py, `_unique_slug`): base, base-2, base-3, ... and why they are
    pairwise distinct, decimal printing included. `slugify` itself is any function; only its result appears. */
module Slugs {
  import opened Basics

  function Digit(d: nat): char
    requires d < 10
  {
    ('0' as int + d) as char
  }

  /** How Python prints a natural number. */
  function Decimal(n: nat): string {
    if n < 10 then [Digit(n)] else Decimal(n / 10) + [Digit(n % 10)]
  }

  function BaseSlug(slugified: string): string {
    if slugified == "" then "item" else slugified
  }

  /** The k-th slug tried: the base itself, then base-2, base-3, ... */
  function Candidate(base: string, k: nat): string {
    if k == 0 then base else base + "-" + Decimal(k + 1)
  }

  /** The number a text of digits stands for, read from the left. */
  function ReadBack(text: string): int {
    if text == "" then 0 else 10 * ReadBack(text[..|text| - 1]) + (text[|text| - 1] as int - '0' as int)
  }

  /** The text is the number as people write it: the ten digits only, no zero in front, and it reads back as it. */
  ghost predicate Numeral(text: string, n: nat) {
    && text != "" && (forall i :: 0 <= i < |text| ==> '0' <= text[i] <= '9')
    && (n > 0 ==> text[0] != '0') && ReadBack(text) == n
  }

  /** Printing and reading back a number is the identity. */
  lemma {:induction false} DecimalReads(n: nat)
    ensures Numeral(Decimal(n), n)
  {
    var text := Decimal(n);
    var last := |text| - 1;
    if n < 10 {
      assert text[..0] == "";
    } else {
      DecimalReads(n / 10);
      assert text[..last] == Decimal(n / 10) && text[last] == Digit(n % 10);
      forall i | 0 <= i < |text| ensures '0' <= text[i] <= '9' {
        assert i < last ==> text[i] == Decimal(n / 10)[i];
      }
      assert text[0] == Decimal(n / 10)[0];
    }
  }

  /** The slug itself for k = 0, and after that the base, a dash and the number k + 1. */
  ghost predicate Suffixed(base: string, slug: string, k: nat) {
    if k == 0 then slug == base
    else |slug| > |base| && slug[..|base|] == base && slug[|base|] == '-' && Numeral(slug[|base| + 1..], k + 1)
  }

  lemma {:induction false} CandidatesNumbered(base: string, k: nat)
    ensures Suffixed(base, Candidate(base, k), k)
  {
    hide Numeral;
    DecimalReads(k + 1);
    assert k > 0 ==> Candidate(base, k)[|base| + 1..] == Decimal(k + 1);
  }

  /** The candidates read base, base-2, base-3, ... and no two coincide, so a search that keeps finding slugs taken
      keeps using up taken slugs. */
  lemma {:induction false} CandidatesDistinct(base: string, j: nat, k: nat)
    ensures Suffixed(base, Candidate(base, j), j) && Suffixed(base, Candidate(base, k), k)
    ensures Candidate(base, j) == Candidate(base, k) ==> j == k
  {
    hide Suffixed;
    CandidatesNumbered(base, j);
    CandidatesNumbered(base, k);
    if j > 0 && k > 0 && Candidate(base, j) == Candidate(base, k) {
      assert Candidate(base, j)[|base| + 1..] == Decimal(j + 1);
      assert Candidate(base, k)[|base| + 1..] == Decimal(k + 1);
      DecimalReads(j + 1);
      DecimalReads(k + 1);
    }
  }

  function Candidates(base: string, count: nat): set<string> {
    set j | 0 <= j < count :: Candidate(base, j)
  }

  lemma {:induction false} CandidatesSize(base: string, count: nat)
    ensures |Candidates(base, count)| == count
  {
    if count == 0 {
      assert Candidates(base, 0) == {};
    } else {
      CandidatesSize(base, count - 1);
      assert Candidates(base, count) == Candidates(base, count - 1) + {Candidate(base, count - 1)};
      forall j | 0 <= j < count - 1 ensures Candidate(base, j) != Candidate(base, count - 1) {
        CandidatesDistinct(base, j, count - 1);
      }
    }
  }

  /** The pigeonhole behind termination: if the first `count` candidates are all taken there are at least that many
      taken slugs. */
  lemma {:induction false} TakenCandidatesBound(base: string, count: nat, taken: set<string>)
    requires forall j :: 0 <= j < count ==> Candidate(base, j) in taken
    ensures count <= |taken|
  {
    CandidatesSize(base, count);
    SubsetSize(Candidates(base, count), taken);
  }
}

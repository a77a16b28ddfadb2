/** The history screen's search box: an order-preserving filter of the
    purchases by a case-insensitive substring match on four fields. */
module History {
  import opened Wrappers
  import opened Records
  import opened Seqs
  import opened Text

  /** `(field || '')`: a missing field searches as the empty string. */
  function OrEmpty(f: Option<string>): string { f.GetOr("") }

  /** `(field || '').toLowerCase()` */
  function Searched(field: Option<string>): string
  {
    Lower(OrEmpty(field))
  }

  /** The match test for a non-empty term. */
  predicate SearchHit(p: Purchase, term: string)
  {
    var needle := Lower(term);
    Contains(Searched(p.customerName), needle)
    || Contains(Searched(p.itemDescription), needle)
    || Contains(Searched(p.brand), needle)
    || Contains(Searched(p.model), needle)
  }

  /** The filter's callback: everything is shown for an empty term. */
  function ShownFor(term: string): Purchase -> bool
  {
    p => term == "" || SearchHit(p, term)
  }

  /** `filteredPurchases` */
  function FilteredPurchases(purchases: seq<Purchase>, term: string): (r: seq<Purchase>)
    ensures |r| <= |purchases|
    ensures forall i :: 0 <= i < |r| ==> r[i] in purchases && (term == "" || SearchHit(r[i], term))
  {
    Filter(purchases, ShownFor(term))
  }

  /** An empty search shows the purchases unchanged. */
  lemma EmptySearchShowsAll(purchases: seq<Purchase>)
    ensures FilteredPurchases(purchases, "") == purchases
  {
    FilterAll(purchases, ShownFor(""));
  }

  /** A purchase matches exactly when the lowered term occurs at some
      position of at least one of its four lowered fields. */
  lemma SearchHitMeaning(p: Purchase, term: string)
    ensures SearchHit(p, term) <==>
      (exists i: nat :: OccursAt(Searched(p.customerName), Lower(term), i))
      || (exists i: nat :: OccursAt(Searched(p.itemDescription), Lower(term), i))
      || (exists i: nat :: OccursAt(Searched(p.brand), Lower(term), i))
      || (exists i: nat :: OccursAt(Searched(p.model), Lower(term), i))
  {
    ContainsIffOccurs(Searched(p.customerName), Lower(term));
    ContainsIffOccurs(Searched(p.itemDescription), Lower(term));
    ContainsIffOccurs(Searched(p.brand), Lower(term));
    ContainsIffOccurs(Searched(p.model), Lower(term));
    assert SearchHit(p, term) <==>
      (Contains(Searched(p.customerName), Lower(term)) || Contains(Searched(p.itemDescription), Lower(term))
       || Contains(Searched(p.brand), Lower(term)) || Contains(Searched(p.model), Lower(term)));
  }

  /** The search result is the order-preserving subsequence of exactly the
      matching purchases: each purchase occurs in it as often as in the
      input when it matches, and not at all otherwise. */
  lemma SearchSelectsExactly(purchases: seq<Purchase>, term: string, p: Purchase)
    requires term != ""
    ensures IsSubsequence(FilteredPurchases(purchases, term), purchases)
    ensures multiset(FilteredPurchases(purchases, term))[p]
         == if SearchHit(p, term) then multiset(purchases)[p] else 0
    ensures p in FilteredPurchases(purchases, term) <==> p in purchases && SearchHit(p, term)
  {
    FilterIsSubsequence(purchases, ShownFor(term));
    FilterMultiplicity(purchases, ShownFor(term), p);
    FilterMember(purchases, ShownFor(term), p);
  }

  /** The search ignores the case of the term. */
  lemma SearchIgnoresTermCase(purchases: seq<Purchase>, term: string)
    ensures FilteredPurchases(purchases, term) == FilteredPurchases(purchases, Lower(term))
  {
    LowerIdempotent(term);
    FilterCongruent(purchases, ShownFor(term), ShownFor(Lower(term)));
  }

  /** A missing field and an empty field search alike. */
  lemma MissingFieldSearchesAsEmpty(p: Purchase, term: string)
    ensures SearchHit(p.(brand := None), term) == SearchHit(p.(brand := Some("")), term)
    ensures SearchHit(p.(model := None), term) == SearchHit(p.(model := Some("")), term)
    ensures SearchHit(p.(customerName := None), term) == SearchHit(p.(customerName := Some("")), term)
    ensures SearchHit(p.(itemDescription := None), term) == SearchHit(p.(itemDescription := Some("")), term)
  {
  }
}

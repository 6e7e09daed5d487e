/** Counting the operations that stand at a given kind of program point.

    Every protocol of this project is a map from operation tokens to program
    points, with no bound on the number of tokens.  A token that the map does
    not hold stands at the rest point.  The two lemmas here are all that the
    protocol invariants need to know about cardinalities.
 */
module Tally {

  type Token = nat

  /** The tokens whose program point satisfies `kind`. */
  function Members<P>(points: map<Token, P>, kind: P -> bool): set<Token> {
    set t | t in points && kind(points[t])
  }

  function Count<P>(points: map<Token, P>, kind: P -> bool): nat {
    |Members(points, kind)|
  }

  function One(b: bool): nat {
    if b then 1 else 0
  }

  /** Whether token `t` stands at a point of this kind. */
  predicate At<P>(points: map<Token, P>, t: Token, kind: P -> bool) {
    t in points && kind(points[t])
  }

  /** Moving one token changes a count by what that token leaves and enters. */
  lemma CountMove<P>(points: map<Token, P>, t: Token, p: P, kind: P -> bool)
    ensures Count(points[t := p], kind) == Count(points, kind) - One(At(points, t, kind)) + One(kind(p))
  {
    var before := Members(points, kind);
    var after := Members(points[t := p], kind);
    if kind(p) {
      assert after == before + {t};
    } else {
      assert after == before - {t};
    }
  }

  /** A kind that implies another is no more numerous. */
  lemma CountImplied<P(!new)>(points: map<Token, P>, kind: P -> bool, wider: P -> bool)
    requires forall p :: kind(p) ==> wider(p)
    ensures Members(points, kind) <= Members(points, wider)
    ensures Count(points, kind) <= Count(points, wider)
  {
    SubsetSize(Members(points, kind), Members(points, wider));
  }

  lemma SubsetSize(a: set<Token>, b: set<Token>)
    requires a <= b
    ensures |a| <= |b|
  {
    assert b == a + (b - a);
  }

  /** A kind covered by three others is at most as numerous as their sum. */
  lemma CountCovered<P(!new)>(points: map<Token, P>, kind: P -> bool, a: P -> bool, b: P -> bool, c: P -> bool)
    requires forall p :: kind(p) ==> a(p) || b(p) || c(p)
    ensures Count(points, kind) <= Count(points, a) + Count(points, b) + Count(points, c)
  {
    var union := Members(points, a) + Members(points, b) + Members(points, c);
    SubsetSize(Members(points, kind), union);
  }

  /** Two kinds that exclude each other add up below any kind that covers both. */
  lemma CountDisjoint<P(!new)>(points: map<Token, P>, a: P -> bool, b: P -> bool, wide: P -> bool)
    requires forall p :: !(a(p) && b(p))
    requires forall p :: a(p) || b(p) ==> wide(p)
    ensures Count(points, a) + Count(points, b) <= Count(points, wide)
  {
    assert Members(points, a) !! Members(points, b);
    SubsetSize(Members(points, a) + Members(points, b), Members(points, wide));
  }

  /** Two kinds that exclude each other add up to their union. */
  lemma CountSum<P(!new)>(points: map<Token, P>, a: P -> bool, b: P -> bool, both: P -> bool)
    requires forall p :: !(a(p) && b(p))
    requires forall p :: both(p) <==> a(p) || b(p)
    ensures Count(points, both) == Count(points, a) + Count(points, b)
  {
    assert Members(points, a) !! Members(points, b);
    assert Members(points, both) == Members(points, a) + Members(points, b);
  }

  /** Two tokens of one kind make a count of at least two. */
  lemma CountTwo<P>(points: map<Token, P>, t: Token, u: Token, kind: P -> bool)
    requires t != u && At(points, t, kind) && At(points, u, kind)
    ensures Count(points, kind) >= 2
  {
    SubsetSize({t, u}, Members(points, kind));
  }

  /** A member makes the count positive, and a positive count has a member. */
  lemma CountSome<P>(points: map<Token, P>, kind: P -> bool)
    ensures Count(points, kind) > 0 <==> exists t :: At(points, t, kind)
  {
    if Count(points, kind) > 0 {
      var t :| t in Members(points, kind);
      assert At(points, t, kind);
    }
    forall t | At(points, t, kind) ensures Count(points, kind) > 0 {
      assert t in Members(points, kind);
    }
  }
}

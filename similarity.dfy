/** Lexical overlap between two text fragments (`cos_sim`, app.py:49-55):
    both are lower-cased, split on whitespace, the tokens of more than two
    characters kept as a set, and the overlap normalised by the geometric
    mean of the two set sizes. */
module Similarity {
  import opened Text

  /** All the model assumes of `math.sqrt`: a positive argument has a
      positive root. */
  ghost predicate PositiveRoot(sqrt: real -> real) {
    forall x: real :: x > 0.0 ==> sqrt(x) > 0.0
  }

  /** The exact square root, for the lemmas that need more than positivity. */
  ghost predicate ExactRoot(sqrt: real -> real) {
    forall x: real :: x > 0.0 ==> sqrt(x) > 0.0 && sqrt(x) * sqrt(x) == x
  }

  /** `set(w for w in s.lower().split() if len(w) > 2)`. */
  function WordSet(s: string): (ws: set<string>)
    ensures forall w :: w in ws <==> w in Words(Lower(s)) && |w| > 2
    ensures forall w :: w in ws ==> |w| > 2 && NoSpace(w)
    ensures forall w, c :: w in ws && c in w ==> !IsUpper(c)
  {
    set w | w in Words(Lower(s)) && |w| > 2
  }

  function CosSim(a: string, b: string, sqrt: real -> real): (r: real)
    requires PositiveRoot(sqrt)
    ensures WordSet(a) == {} || WordSet(b) == {} ==> r == 0.0
    ensures r >= 0.0
    ensures r > 0.0 <==> WordSet(a) * WordSet(b) != {}
  {
    SetCosine(WordSet(a), WordSet(b), sqrt)
  }

  /** The overlap of two token sets, 0 when either is empty. */
  function SetCosine(wa: set<string>, wb: set<string>, sqrt: real -> real): (r: real)
    requires PositiveRoot(sqrt)
    ensures wa == {} || wb == {} ==> r == 0.0
    ensures r >= 0.0
    ensures r > 0.0 <==> wa * wb != {}
  {
    if wa == {} || wb == {} then 0.0
    else Overlap(|wa * wb|, sqrt((|wa| * |wb|) as real))
  }

  /** `inter / root`: positive exactly when the two sets share a token. */
  function Overlap(shared: nat, root: real): (r: real)
    requires root > 0.0
    ensures r >= 0.0 && (r > 0.0 <==> shared > 0)
  {
    shared as real / root
  }

  lemma SubsetCard<T>(a: set<T>, b: set<T>)
    requires a <= b
    ensures |a| <= |b|
  {
    assert b == a + (b - a);
  }

  lemma MulMonotone(a: int, b: int, c: nat)
    requires a <= b
    ensures a * c <= b * c
  {
  }

  lemma SquareBelowProduct(i: nat, na: nat, nb: nat)
    requires i <= na && i <= nb
    ensures i * i <= na * nb
  {
    MulMonotone(i, na, i);
    MulMonotone(i, nb, na);
    assert i * na == na * i;
  }

  lemma QuotientAtMostOne(i: real, root: real, n: real)
    requires root > 0.0 && i >= 0.0 && i * i <= n && root * root == n
    ensures i / root <= 1.0
  {
    assert (root - i) * (root + i) == root * root - i * i;
    assert i <= root;
    assert i / root * root == i;
  }

  lemma SelfQuotient(x: real)
    requires x > 0.0
    ensures x / x == 1.0
  {
  }

  lemma CastSquare(k: nat)
    ensures (k * k) as real == (k as real) * (k as real)
  {
  }

  lemma RootOfSquare(root: real, n: real)
    requires root > 0.0 && n > 0.0 && root * root == n * n
    ensures root == n
  {
    assert (root - n) * (root + n) == root * root - n * n;
  }

  /** With the exact root the similarity is a cosine: at most one. */
  lemma CosSimAtMostOne(a: string, b: string, sqrt: real -> real)
    requires ExactRoot(sqrt)
    ensures PositiveRoot(sqrt) && CosSim(a, b, sqrt) <= 1.0
  {
    SetCosineAtMostOne(WordSet(a), WordSet(b), sqrt);
  }

  lemma SetCosineAtMostOne(wa: set<string>, wb: set<string>, sqrt: real -> real)
    requires ExactRoot(sqrt)
    ensures PositiveRoot(sqrt) && SetCosine(wa, wb, sqrt) <= 1.0
  {
    if wa != {} && wb != {} {
      var i := |wa * wb|;
      SubsetCard(wa * wb, wa);
      SubsetCard(wa * wb, wb);
      SquareBelowProduct(i, |wa|, |wb|);
      var n := (|wa| * |wb|) as real;
      assert (i as real) * (i as real) == (i * i) as real;
      QuotientAtMostOne(i as real, sqrt(n), n);
    }
  }

  /** With the exact root a fragment with at least one kept token is fully
      similar to itself. */
  lemma CosSimSelf(a: string, sqrt: real -> real)
    requires ExactRoot(sqrt)
    requires WordSet(a) != {}
    ensures PositiveRoot(sqrt) && CosSim(a, a, sqrt) == 1.0
  {
    SetCosineSelf(WordSet(a), sqrt);
  }

  lemma SetCosineSelf(wa: set<string>, sqrt: real -> real)
    requires ExactRoot(sqrt)
    requires wa != {}
    ensures PositiveRoot(sqrt) && SetCosine(wa, wa, sqrt) == 1.0
  {
    assert wa * wa == wa;
    var k := |wa|;
    var n := k as real;
    var sq := (k * k) as real;
    CastSquare(k);
    assert n > 0.0;
    assert sq == n * n > 0.0;
    var root := sqrt(sq);
    assert root > 0.0 && root * root == sq;
    RootOfSquare(root, n);
    assert SetCosine(wa, wa, sqrt) == Overlap(k, root);
    SelfQuotient(n);
  }

  /** The similarity does not depend on the order of its arguments. */
  lemma CosSimSymmetric(a: string, b: string, sqrt: real -> real)
    requires PositiveRoot(sqrt)
    ensures CosSim(a, b, sqrt) == CosSim(b, a, sqrt)
  {
    var wa, wb := WordSet(a), WordSet(b);
    assert wa * wb == wb * wa;
    assert |wa| * |wb| == |wb| * |wa|;
  }
}

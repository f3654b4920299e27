/**
 * The poker-style hand classifier of the combo mini-grid (src/utils/combos.ts).
 * The colour-count object becomes the multiset of colours; `counts[0]` and `counts[1]`
 * of the descending sort are the largest count and the largest count left after taking
 * out one colour that has the largest count (`Top` and `Second`, 0 where the sorted
 * array has no such entry, which no comparison in the classifier accepts).
 */
module ComboHands {
  import opened GameTypes

  /** `squares.filter(s => s.filled)`. */
  function FilledSquares(squares: seq<ComboSquare>): (r: seq<ComboSquare>)
    ensures forall i :: 0 <= i < |r| ==> r[i].filled
    ensures |r| <= |squares|
  {
    if squares == [] then []
    else (if squares[0].filled then [squares[0]] else []) + FilledSquares(squares[1..])
  }

  /** The colours of the filled squares, nulls dropped, in grid order. */
  function Colours(squares: seq<ComboSquare>): seq<string>
  {
    if squares == [] then []
    else (if squares[0].filled && squares[0].color.Some? then [squares[0].color.value] else [])
         + Colours(squares[1..])
  }

  /** How often a colour occurs among the counted colours. */
  function Count(colours: seq<string>, c: string): nat
  {
    multiset(colours)[c]
  }

  /** A candidate colour with the largest count. */
  function ArgMax(colours: seq<string>, candidates: seq<string>): (r: string)
    requires candidates != []
    ensures r in candidates
    ensures forall i :: 0 <= i < |candidates| ==> Count(colours, candidates[i]) <= Count(colours, r)
  {
    if |candidates| == 1 then candidates[0]
    else
      var best := ArgMax(colours, candidates[1..]);
      assert forall i :: 1 <= i < |candidates| ==> candidates[i] == candidates[1..][i - 1];
      if Count(colours, candidates[0]) >= Count(colours, best) then candidates[0] else best
  }

  /** The largest count among the candidates other than `excluded`, or 0 if there is none. */
  function MaxCountExcept(colours: seq<string>, candidates: seq<string>, excluded: string): (r: nat)
    ensures forall i :: 0 <= i < |candidates| && candidates[i] != excluded ==> Count(colours, candidates[i]) <= r
    ensures r == 0 || exists i :: 0 <= i < |candidates| && candidates[i] != excluded && Count(colours, candidates[i]) == r
  {
    if candidates == [] then 0
    else
      var rest := MaxCountExcept(colours, candidates[1..], excluded);
      assert forall i :: 1 <= i < |candidates| ==> candidates[i] == candidates[1..][i - 1];
      if candidates[0] == excluded || Count(colours, candidates[0]) <= rest then rest
      else Count(colours, candidates[0])
  }

  /** `counts[0]`: the largest count. */
  function Top(colours: seq<string>): nat
  {
    if colours == [] then 0 else Count(colours, ArgMax(colours, colours))
  }

  /** `counts[1]`: the largest count once one colour with the largest count is set aside. */
  function Second(colours: seq<string>): nat
  {
    if colours == [] then 0 else MaxCountExcept(colours, colours, ArgMax(colours, colours))
  }

  /** The priority chain of `calculateComboType`, from the best hand down. */
  function Classify(top: nat, second: nat): (r: ComboType)
    ensures r == FiveOfAKind <==> top == 5
    ensures r == FourOfAKind <==> top == 4
    ensures r == FullHouse <==> top == 3 && second == 2
    ensures r == ThreeOfAKind <==> top == 3 && second != 2
    ensures r == TwoPair <==> top == 2 && second == 2
    ensures r == OnePair <==> top == 2 && second != 2
    ensures r == Nothing <==> top !in {2, 3, 4, 5}
  {
    if top == 5 then FiveOfAKind
    else if top == 4 then FourOfAKind
    else if top == 3 && second == 2 then FullHouse
    else if top == 3 then ThreeOfAKind
    else if top == 2 && second == 2 then TwoPair
    else if top == 2 then OnePair
    else Nothing
  }

  /** `calculateComboType`; `None` is the `null` result. */
  function CalculateComboType(squares: seq<ComboSquare>): Option<ComboType>
  {
    if |FilledSquares(squares)| == 0 then None
    else
      var colours := Colours(squares);
      if |colours| == 0 then None
      else Some(Classify(Top(colours), Second(colours)))
  }

  // ---- Order-independent meaning of the two counts ----

  /** `k` is the largest multiplicity of the multiset. */
  ghost predicate IsTopCount(m: multiset<string>, k: nat)
  {
    (exists x :: x in m && m[x] == k) && forall x :: x in m ==> m[x] <= k
  }

  /** `k` is the largest multiplicity left after setting aside one colour of largest multiplicity. */
  ghost predicate IsSecondCount(m: multiset<string>, k: nat)
  {
    exists t :: t in m && IsTopCount(m, m[t])
      && (forall y :: y in m && y != t ==> m[y] <= k)
      && (k == 0 || exists y :: y in m && y != t && m[y] == k)
  }

  lemma TopCountUnique(m: multiset<string>, k1: nat, k2: nat)
    requires IsTopCount(m, k1) && IsTopCount(m, k2)
    ensures k1 == k2
  {
  }

  lemma SecondCountUnique(m: multiset<string>, k1: nat, k2: nat)
    requires IsSecondCount(m, k1) && IsSecondCount(m, k2)
    ensures k1 == k2
  {
    var t1 :| t1 in m && IsTopCount(m, m[t1])
      && (forall y :: y in m && y != t1 ==> m[y] <= k1)
      && (k1 == 0 || exists y :: y in m && y != t1 && m[y] == k1);
    var t2 :| t2 in m && IsTopCount(m, m[t2])
      && (forall y :: y in m && y != t2 ==> m[y] <= k2)
      && (k2 == 0 || exists y :: y in m && y != t2 && m[y] == k2);
    if t1 != t2 {
      TopCountUnique(m, m[t1], m[t2]);
      assert m[t2] <= k1 && m[t1] <= k2;
    }
  }

  lemma TopIsTopCount(colours: seq<string>)
    requires colours != []
    ensures IsTopCount(multiset(colours), Top(colours))
  {
    var m := multiset(colours);
    var t := ArgMax(colours, colours);
    assert t in m;
    forall x | x in m
      ensures m[x] <= Top(colours)
    {
      var i :| 0 <= i < |colours| && colours[i] == x;
      assert Count(colours, colours[i]) <= Count(colours, t);
    }
  }

  lemma SecondIsSecondCount(colours: seq<string>)
    requires colours != []
    ensures IsSecondCount(multiset(colours), Second(colours))
  {
    var m := multiset(colours);
    var t := ArgMax(colours, colours);
    var k := Second(colours);
    TopIsTopCount(colours);
    assert t in m && m[t] == Top(colours);
    forall y | y in m && y != t
      ensures m[y] <= k
    {
      var i :| 0 <= i < |colours| && colours[i] == y;
      assert Count(colours, colours[i]) <= k;
    }
    if k != 0 {
      var i :| 0 <= i < |colours| && colours[i] != t && Count(colours, colours[i]) == k;
      assert colours[i] in m && m[colours[i]] == k;
    }
  }

  // ---- What the classifier depends on ----

  /** The classifier is null exactly when no filled square carries a colour. */
  lemma {:induction false} NullExactlyWithoutColours(squares: seq<ComboSquare>)
    ensures CalculateComboType(squares).None? <==> Colours(squares) == []
    ensures |FilledSquares(squares)| == 0 ==> CalculateComboType(squares).None?
  {
    NoFilledNoColours(squares);
  }

  lemma {:induction false} NoFilledNoColours(squares: seq<ComboSquare>)
    ensures |FilledSquares(squares)| == 0 ==> Colours(squares) == []
  {
    if squares != [] {
      NoFilledNoColours(squares[1..]);
    }
  }

  /** Any two hands with the same multiset of counted colours classify alike. */
  lemma SameColoursSameHand(s1: seq<ComboSquare>, s2: seq<ComboSquare>)
    requires multiset(Colours(s1)) == multiset(Colours(s2))
    ensures CalculateComboType(s1) == CalculateComboType(s2)
  {
    NullExactlyWithoutColours(s1);
    NullExactlyWithoutColours(s2);
    var c1, c2 := Colours(s1), Colours(s2);
    if c1 != [] {
      assert |c2| == |multiset(c2)| == |multiset(c1)| == |c1|;
      TopIsTopCount(c1);
      TopIsTopCount(c2);
      TopCountUnique(multiset(c1), Top(c1), Top(c2));
      SecondIsSecondCount(c1);
      SecondIsSecondCount(c2);
      SecondCountUnique(multiset(c1), Second(c1), Second(c2));
    } else {
      assert |c2| == |multiset(c2)| == |multiset(c1)| == 0;
    }
  }

  /** A colour's count is the number of filled squares of that colour. */
  lemma {:induction false} ColoursCount(squares: seq<ComboSquare>, c: string)
    ensures multiset(Colours(squares))[c] == multiset(squares)[ComboSquare(true, Some(c))]
  {
    if squares != [] {
      ColoursCount(squares[1..], c);
      assert squares == [squares[0]] + squares[1..];
      assert multiset(squares) == multiset([squares[0]]) + multiset(squares[1..]);
    }
  }

  /** Reordering the squares never changes the hand. */
  lemma PermutationInvariant(s1: seq<ComboSquare>, s2: seq<ComboSquare>)
    requires multiset(s1) == multiset(s2)
    ensures CalculateComboType(s1) == CalculateComboType(s2)
  {
    forall c
      ensures multiset(Colours(s1))[c] == multiset(Colours(s2))[c]
    {
      ColoursCount(s1, c);
      ColoursCount(s2, c);
    }
    assert multiset(Colours(s1)) == multiset(Colours(s2));
    SameColoursSameHand(s1, s2);
  }

  lemma {:induction false} ColoursAppend(a: seq<ComboSquare>, b: seq<ComboSquare>)
    ensures Colours(a + b) == Colours(a) + Colours(b)
  {
    if a == [] {
      assert a + b == b;
    } else {
      assert (a + b)[0] == a[0] && (a + b)[1..] == a[1..] + b;
      ColoursAppend(a[1..], b);
    }
  }

  /** Inserting an unfilled (or colourless) square anywhere never changes the hand. */
  lemma UncountedSquareIgnored(squares: seq<ComboSquare>, i: nat, q: ComboSquare)
    requires i <= |squares|
    requires !q.filled || q.color.None?
    ensures CalculateComboType(squares[..i] + [q] + squares[i..]) == CalculateComboType(squares)
  {
    ColoursAppend(squares[..i] + [q], squares[i..]);
    ColoursAppend(squares[..i], [q]);
    ColoursAppend(squares[..i], squares[i..]);
    assert [q][1..] == [];
    assert Colours([q]) == [];
    assert squares[..i] + squares[i..] == squares;
    SameColoursSameHand(squares[..i] + [q] + squares[i..], squares);
  }

  /** The hand is the priority chain applied to the order-independent counts. */
  lemma ComboTypeMeaning(squares: seq<ComboSquare>, top: nat, second: nat)
    requires Colours(squares) != []
    requires IsTopCount(multiset(Colours(squares)), top)
    requires IsSecondCount(multiset(Colours(squares)), second)
    ensures CalculateComboType(squares) == Some(Classify(top, second))
  {
    var c := Colours(squares);
    NullExactlyWithoutColours(squares);
    TopIsTopCount(c);
    TopCountUnique(multiset(c), top, Top(c));
    SecondIsSecondCount(c);
    SecondCountUnique(multiset(c), second, Second(c));
  }

  /** Colours that are all different give `nothing`. */
  lemma AllDistinctGiveNothing(squares: seq<ComboSquare>)
    requires Colours(squares) != []
    requires forall x :: x in multiset(Colours(squares)) ==> multiset(Colours(squares))[x] == 1
    ensures CalculateComboType(squares) == Some(Nothing)
  {
    var c := Colours(squares);
    NullExactlyWithoutColours(squares);
    TopIsTopCount(c);
    assert c[0] in multiset(c);
    TopCountUnique(multiset(c), 1, Top(c));
  }

  /** One colour three times and another twice, with no second pair beside the triple. */
  ghost predicate FullHousePattern(m: multiset<string>)
  {
    exists c, d :: c in m && d in m && c != d && m[c] == 3 && m[d] == 2
      && forall y :: y in m && y != c ==> m[y] <= 2
  }

  lemma FullHouseHasPattern(squares: seq<ComboSquare>)
    requires CalculateComboType(squares) == Some(FullHouse)
    ensures FullHousePattern(multiset(Colours(squares)))
  {
    var col := Colours(squares);
    var m := multiset(col);
    assert IsTopCount(m, 3) && IsSecondCount(m, 2) by {
      NullExactlyWithoutColours(squares);
      TopIsTopCount(col);
      SecondIsSecondCount(col);
      assert Top(col) == 3 && Second(col) == 2;
    }
    var t :| t in m && IsTopCount(m, m[t])
      && (forall y :: y in m && y != t ==> m[y] <= 2)
      && (exists y :: y in m && y != t && m[y] == 2);
    TopCountUnique(m, m[t], 3);
    var d :| d in m && d != t && m[d] == 2;
    assert t in m && d in m && t != d && m[t] == 3 && m[d] == 2;
  }

  lemma PatternIsFullHouse(squares: seq<ComboSquare>)
    requires FullHousePattern(multiset(Colours(squares)))
    ensures CalculateComboType(squares) == Some(FullHouse)
  {
    var col := Colours(squares);
    var m := multiset(col);
    var c, d :| c in m && d in m && c != d && m[c] == 3 && m[d] == 2
      && forall y :: y in m && y != c ==> m[y] <= 2;
    assert col != [] by {
      assert c in m;
    }
    assert IsTopCount(m, 3);
    assert IsSecondCount(m, 2);
    ComboTypeMeaning(squares, 3, 2);
  }

  /** A full house is exactly one colour three times and another twice, with no other pair. */
  lemma FullHouseExactly(squares: seq<ComboSquare>)
    ensures CalculateComboType(squares) == Some(FullHouse) <==> FullHousePattern(multiset(Colours(squares)))
  {
    if CalculateComboType(squares) == Some(FullHouse) {
      FullHouseHasPattern(squares);
    }
    if FullHousePattern(multiset(Colours(squares))) {
      PatternIsFullHouse(squares);
    }
  }
}

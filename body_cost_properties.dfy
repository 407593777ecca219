/**
 * Properties of `BodyUtils.calculateCost` and of the `Body` and `BodyCost`
 * tables it reads.
 */
module BodyCostProperties {

  import opened Wrappers
  import opened ScreepsLib

  // ---------------------------------------------------------------------------
  // The part-name and cost tables

  /** Part → string → part is the identity. */
  lemma PartNameRoundTrip(p: BodyPart)
    ensures ParsePart(PartName(p)) == Some(p)
  {
  }

  /** The seven `Body` strings are distinct, and every part kind is listed once. */
  lemma PartNamesDistinct()
    ensures |AllParts| == 7
    ensures forall p :: p in AllParts
    ensures forall i, j | 0 <= i < j < |AllParts| :: PartName(AllParts[i]) != PartName(AllParts[j])
  {
    forall p ensures p in AllParts {
      match p
      case Move => assert AllParts[0] == p;
      case Work => assert AllParts[1] == p;
      case Carry => assert AllParts[2] == p;
      case Attack => assert AllParts[3] == p;
      case RangedAttack => assert AllParts[4] == p;
      case Tough => assert AllParts[5] == p;
      case Heal => assert AllParts[6] == p;
    }
  }

  /** The `BodyCost` keys are exactly the `Body` strings. */
  lemma CostTableKeys(s: string)
    ensures s in BodyCostTable <==> exists p :: PartName(p) == s
  {
    if s in BodyCostTable {
      assert PartName(ParsePart(s).value) == s;
    }
  }

  // ---------------------------------------------------------------------------
  // The fold

  /** The reduce starts from 0, so the empty body costs nothing. */
  lemma EmptyBodyCost()
    ensures CalculateCost([]) == 0
  {
  }

  /** Cost is additive over concatenation of bodies. */
  lemma {:induction false} CostAppend(a: seq<string>, b: seq<string>)
    requires IsBody(a) && IsBody(b)
    ensures IsBody(a + b)
    ensures CalculateCost(a + b) == CalculateCost(a) + CalculateCost(b)
  {
    if a == [] {
      assert a + b == b;
    } else {
      assert (a + b)[1..] == a[1..] + b;
      CostAppend(a[1..], b);
    }
  }

  /** Appending a part adds its unit cost, so the cost strictly increases. */
  lemma CostAppendPart(body: seq<string>, s: string)
    requires IsBody(body) && s in BodyCostTable
    ensures IsBody(body + [s])
    ensures CalculateCost(body + [s]) == CalculateCost(body) + BodyCostTable[s]
    ensures CalculateCost(body + [s]) > CalculateCost(body)
  {
    CostAppend(body, [s]);
    assert Cost(ParsePart(s).value) == BodyCostTable[s];
  }

  /** A body of n parts costs between 5·n and 200·n energy. */
  lemma {:induction false} CostBounds(body: seq<string>)
    requires IsBody(body)
    ensures MinPartCost * |body| <= CalculateCost(body) <= MaxPartCost * |body|
  {
    if body != [] {
      CostBounds(body[1..]);
      assert Cost(ParsePart(body[0]).value) == BodyCostTable[body[0]];
    }
  }

  // ---------------------------------------------------------------------------
  // Count of each kind times its unit cost

  /** Σ over `kinds` of (occurrences of that kind's string in m) × (its unit cost). */
  ghost function WeightedCount(m: multiset<string>, kinds: seq<BodyPart>): int
  {
    if kinds == [] then 0
    else m[PartName(kinds[0])] * Cost(kinds[0]) + WeightedCount(m, kinds[1..])
  }

  lemma {:induction false} WeightedCountAdd(m1: multiset<string>, m2: multiset<string>, kinds: seq<BodyPart>)
    ensures WeightedCount(m1 + m2, kinds) == WeightedCount(m1, kinds) + WeightedCount(m2, kinds)
  {
    if kinds != [] {
      WeightedCountAdd(m1, m2, kinds[1..]);
      var k := kinds[0];
      assert (m1 + m2)[PartName(k)] * Cost(k) == m1[PartName(k)] * Cost(k) + m2[PartName(k)] * Cost(k);
    }
  }

  /** WeightedCount over all part kinds, written out kind by kind. */
  lemma WeightedCountAllParts(m: multiset<string>)
    ensures WeightedCount(m, AllParts)
         == m["move"] * 50 + m["work"] * 20 + m["carry"] * 50 + m["attack"] * 100
          + m["ranged_attack"] * 150 + m["tough"] * 5 + m["heal"] * 200
  {
    assert AllParts[1..] == [Work, Carry, Attack, RangedAttack, Tough, Heal];
    assert AllParts[2..] == [Carry, Attack, RangedAttack, Tough, Heal];
    assert AllParts[3..] == [Attack, RangedAttack, Tough, Heal];
    assert AllParts[4..] == [RangedAttack, Tough, Heal];
    assert AllParts[5..] == [Tough, Heal];
    assert AllParts[6..] == [Heal];
    assert AllParts[7..] == [];
    assert WeightedCount(m, [Heal]) == m["heal"] * 200;
    assert WeightedCount(m, [Tough, Heal]) == m["tough"] * 5 + m["heal"] * 200;
    assert WeightedCount(m, [RangedAttack, Tough, Heal])
        == m["ranged_attack"] * 150 + m["tough"] * 5 + m["heal"] * 200;
    assert WeightedCount(m, [Attack, RangedAttack, Tough, Heal])
        == m["attack"] * 100 + m["ranged_attack"] * 150 + m["tough"] * 5 + m["heal"] * 200;
    assert WeightedCount(m, [Carry, Attack, RangedAttack, Tough, Heal])
        == m["carry"] * 50 + m["attack"] * 100 + m["ranged_attack"] * 150 + m["tough"] * 5 + m["heal"] * 200;
  }

  /** A one-part body's weighted count is that part's unit cost. */
  lemma WeightedCountSingle(s: string)
    requires s in BodyCostTable
    ensures WeightedCount(multiset{s}, AllParts) == BodyCostTable[s]
  {
    WeightedCountAllParts(multiset{s});
  }

  /** Cost equals the sum over part kinds of (number of occurrences) × (unit cost). */
  lemma {:induction false} CostByKind(body: seq<string>)
    requires IsBody(body)
    ensures CalculateCost(body) == WeightedCount(multiset(body), AllParts)
  {
    if body == [] {
      WeightedCountAllParts(multiset(body));
    } else {
      var rest := body[1..];
      assert body == [body[0]] + rest;
      assert multiset(body) == multiset{body[0]} + multiset(rest);
      CostAppend([body[0]], rest);
      CostByKind(rest);
      WeightedCountSingle(body[0]);
      WeightedCountAdd(multiset{body[0]}, multiset(rest), AllParts);
    }
  }

  /** Cost does not depend on the order of the parts. */
  lemma CostPermutation(a: seq<string>, b: seq<string>)
    requires IsBody(a) && multiset(a) == multiset(b)
    ensures IsBody(b)
    ensures CalculateCost(a) == CalculateCost(b)
  {
    forall s | s in b ensures s in BodyCostTable {
      assert s in multiset(b);
    }
    CostByKind(a);
    CostByKind(b);
  }

  // ---------------------------------------------------------------------------
  // Bodies built from `Body` constants

  /** Every element of a body built from part kinds names that kind back. */
  lemma NamesRoundTrip(parts: seq<BodyPart>, i: nat)
    requires i < |parts|
    ensures ParsePart(Names(parts)[i]) == Some(parts[i])
  {
  }

  /** Two movers, a worker and a carrier cost 170, and the body has two movers. */
  lemma ExampleBody()
    ensures CalculateCost(Names([Move, Move, Work, Carry])) == 170
    ensures multiset(Names([Move, Move, Work, Carry]))[PartName(Move)] == 2
  {
  }

}

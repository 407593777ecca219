/**
 * The body-cost calculator of the Screeps client library: the `Body` table of
 * part names, the `BodyCost` table of energy costs, and
 * `BodyUtils.calculateCost`, which folds a creep body into its total cost.
 */
module ScreepsLib {

  import opened Wrappers

  /** The seven kinds of body part a creep can be assembled from. */
  datatype BodyPart = Move | Work | Carry | Attack | RangedAttack | Tough | Heal

  /** Every part kind, once each, in the order the `Body` table lists them. */
  ghost const AllParts: seq<BodyPart> := [Move, Work, Carry, Attack, RangedAttack, Tough, Heal]

  /** The cheapest and the dearest unit cost in the `BodyCost` table. */
  const MinPartCost: nat := 5
  const MaxPartCost: nat := 200

  /** The `BodyCost` table: energy cost of one part, keyed by its game string. */
  const BodyCostTable: map<string, nat> := map[
    "move" := 50,
    "work" := 20,
    "carry" := 50,
    "attack" := 100,
    "ranged_attack" := 150,
    "heal" := 200,
    "tough" := 5
  ]

  /** The `Body` table: the string the game uses for each part kind. */
  function PartName(p: BodyPart): (s: string)
    ensures s in BodyCostTable
  {
    match p
    case Move => "move"
    case Work => "work"
    case Carry => "carry"
    case Attack => "attack"
    case RangedAttack => "ranged_attack"
    case Tough => "tough"
    case Heal => "heal"
  }

  /** The reverse of the `Body` table: which part kind, if any, a string names. */
  function ParsePart(s: string): (r: Option<BodyPart>)
    ensures forall p :: r == Some(p) <==> PartName(p) == s
    ensures r.Some? <==> s in BodyCostTable
  {
    if s == "move" then Some(Move)
    else if s == "work" then Some(Work)
    else if s == "carry" then Some(Carry)
    else if s == "attack" then Some(Attack)
    else if s == "ranged_attack" then Some(RangedAttack)
    else if s == "tough" then Some(Tough)
    else if s == "heal" then Some(Heal)
    else None
  }

  /** `BodyCost[Body.X]`: the unit cost of one part kind. */
  function Cost(p: BodyPart): (c: nat)
    ensures 0 < MinPartCost <= c <= MaxPartCost
    ensures c == MinPartCost <==> p == Tough
    ensures c == MaxPartCost <==> p == Heal
  {
    BodyCostTable[PartName(p)]
  }

  /** A body `calculateCost` is defined on: every element is a `BodyCost` key. */
  predicate IsBody(body: seq<string>)
  {
    forall s | s in body :: s in BodyCostTable
  }

  /** The reference meaning of a body's cost: the sum of `BodyCost` over its parts. */
  ghost function SumOfCosts(body: seq<string>): nat
    requires IsBody(body)
  {
    if body == [] then 0 else BodyCostTable[body[0]] + SumOfCosts(body[1..])
  }

  /** The `_.reduce` of `calculateCost`: a left fold with step `acc + BodyCost[b]`. */
  function Reduce(body: seq<string>, acc: int): (r: int)
    requires IsBody(body)
    ensures r == acc + SumOfCosts(body)
  {
    if body == [] then acc
    else Reduce(body[1..], acc + BodyCostTable[body[0]])
  }

  /** `BodyUtils.calculateCost`: the total energy cost of a body, folded from 0. */
  function CalculateCost(body: seq<string>): (r: nat)
    requires IsBody(body)
    ensures r == SumOfCosts(body)
  {
    Reduce(body, 0)
  }

  /** The strings of a body built from `Body` constants. */
  function Names(parts: seq<BodyPart>): (body: seq<string>)
    ensures |body| == |parts|
    ensures forall i | 0 <= i < |parts| :: body[i] == PartName(parts[i])
    ensures IsBody(body)
  {
    if parts == [] then [] else [PartName(parts[0])] + Names(parts[1..])
  }

}

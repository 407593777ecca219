# Screeps body-cost calculator, modelled in Dafny

The Screeps client library names the seven kinds of creep body part
(`Body`: move, work, carry, attack, ranged_attack, tough, heal), fixes one
energy cost per part string (`BodyCost`), and computes the cost of a creep
body — an array of part strings — with `BodyUtils.calculateCost`, a
`_.reduce` that starts from 0 and adds `BodyCost[b]` for every part `b`.

This project models that, on bodies whose elements are all `BodyCost` keys:

- `wrappers.dfy` — module `Wrappers`: an `Option` datatype.
- `screeps_lib.dfy` — module `ScreepsLib`: the `BodyPart` datatype, the `Body`
  table (`PartName`) and its inverse (`ParsePart`), the `BodyCost` table
  (`BodyCostTable`, `Cost`), the left fold `Reduce` and `CalculateCost` over
  bodies of strings, and `Names`, which turns a body of part kinds into the
  strings the game uses.
- `body_cost_properties.dfy` — module `BodyCostProperties`: lemmas about the
  tables and the fold (round trips, distinctness, additivity, bounds, count of
  each kind times its unit cost, order independence).

`CalculateCost` keeps the source's signature: it takes a sequence of strings.
Its precondition `IsBody` says that every element is a key of the `BodyCost`
table; `Names` shows that every body built from `Body` constants meets it.
The fold is modelled as the left fold the reduce performs (`Reduce`), and is
proved equal to the plain sum of unit costs (`SumOfCosts`).

`ParsePart` and `Names` are devices of the model for relating part kinds to
their strings; the code has no such functions. The code has no count-of-kind
query either: occurrence counts appear only inside the ghost function
`WeightedCount`, the lemma device for the count × cost property.

## Model

| member | source | states |
|---|---|---|
| ScreepsLib.PartName | Screeps/screeps.lib.ts:7-15 | every `Body` string is a key of the `BodyCost` table |
| ScreepsLib.ParsePart | Screeps/screeps.lib.ts:7-24 | the inverse of `Body`: yields part p exactly when the string is p's name, and yields a part exactly for the `BodyCost` keys |
| ScreepsLib.Cost | Screeps/screeps.lib.ts:16-24 | every unit cost is positive and between 5 and 200; 5 only for tough, 200 only for heal |
| ScreepsLib.Reduce | Screeps/screeps.lib.ts:28 | the reduce step `acc + BodyCost[b]` folded from any accumulator gives that accumulator plus the sum of the unit costs |
| ScreepsLib.CalculateCost | Screeps/screeps.lib.ts:26-29 | the cost of a body whose elements are all table keys is the sum of `BodyCost` over its parts |
| ScreepsLib.Names | Screeps/screeps.lib.ts:7-15 | a body built from `Body` constants has one string per part, the part's name, and is in the domain of `calculateCost` |
| BodyCostProperties.PartNameRoundTrip | Screeps/screeps.lib.ts:7-15 | part to string to part is the identity |
| BodyCostProperties.PartNamesDistinct | Screeps/screeps.lib.ts:7-15 | the seven `Body` strings are pairwise distinct and every part kind is listed |
| BodyCostProperties.CostTableKeys | Screeps/screeps.lib.ts:7-24 | a string is a `BodyCost` key exactly when it is the name of some part kind |
| BodyCostProperties.EmptyBodyCost | Screeps/screeps.lib.ts:28 | the empty body costs 0, the reduce's initial accumulator |
| BodyCostProperties.CostAppend | Screeps/screeps.lib.ts:28 | cost is additive over concatenation of bodies |
| BodyCostProperties.CostAppendPart | Screeps/screeps.lib.ts:16-28 | appending a part adds exactly its unit cost, so the cost strictly increases |
| BodyCostProperties.CostBounds | Screeps/screeps.lib.ts:16-28 | a body of n parts costs at least 5·n and at most 200·n |
| BodyCostProperties.WeightedCountAllParts | Screeps/screeps.lib.ts:16-24 | the occurrence-weighted sum over all kinds, written out with the table's seven unit costs |
| BodyCostProperties.CostByKind | Screeps/screeps.lib.ts:16-28 | cost equals the sum over part kinds of (number of occurrences) × (unit cost) |
| BodyCostProperties.CostPermutation | Screeps/screeps.lib.ts:28 | any rearrangement of a valid body is valid and has the same cost |
| BodyCostProperties.NamesRoundTrip | Screeps/screeps.lib.ts:7-15 | each string of a body built from part kinds parses back to that kind |
| BodyCostProperties.ExampleBody | Screeps/screeps.lib.ts:16-28 | move, move, work, carry costs 170 and contains two move parts |

## Left out

- `StructureTypes` (Screeps/screeps.lib.ts:1-6): constant strings that no logic reads.
- CalculateCost: a string that is not a `BodyCost` key is excluded by the precondition; in JavaScript the lookup gives `undefined` (the result becomes `NaN`) or, for a name inherited from `Object.prototype` such as `toString`, a non-number (the result becomes a string); the model represents neither.
- JavaScript number semantics (floating-point addition, `NaN`): all costs are small integers, so costs are `nat`.
- The internals of lodash's `_.reduce`: the fold is modelled directly as recursion over the sequence.
- Screeps/Scripts/typings/screeps/screeps.d.ts: declarations of the remote game's objects and calls, with no implementation; creeps, spawns, rooms, positions and the result-code enums are not part of this model.
- No result-code classification, budget check or count-of-kind query exists in the code; the model adds none.
- A limit on body length and non-emptiness of a body: the code enforces neither, so the model does not either.

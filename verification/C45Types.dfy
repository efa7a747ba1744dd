/** Cases, tests and trees of C4.5. */
module C45Types {
  import opened BitSets

  /** A case: the two readings of its attribute values, and its class. Discrete value 0 stands for
      an unknown value. */
  datatype Case = Case(discr: seq<nat>, cont: seq<real>, cls: nat)

  /** The unknown value of a continuous attribute. */
  const UNKNOWN: real := -999.0

  const EPSILON := 0.001

  const LEAF := 0
  const BR_DISCR := 1
  const THRESH_CONTIN := 2
  const BR_SUBSET := 3

  /** A tree node. Fields that a kind of node does not use are zero; F is the type of its numbers.
      Subset and branch number v is at place v - 1. */
  datatype Tree<F> = Tree(nodeType: int, leaf: int, items: F, errors: F, dist: seq<F>, tested: int, forks: int,
                          cut: F, lower: F, upper: F, subset: seq<Bits>, branch: seq<Tree<F>>)

  function DVal(c: Case, a: int): nat { if 0 <= a < |c.discr| then c.discr[a] else 0 }

  function CVal(c: Case, a: int): real { if 0 <= a < |c.cont| then c.cont[a] else UNKNOWN }
}

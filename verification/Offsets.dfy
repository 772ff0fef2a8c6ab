/** The position of a message in a partitioned topic, and its ordering (pkg/rkcy/kafka.go). */
module Offsets {
  datatype CompoundOffset = CompoundOffset(generation: int, partition: int, offset: int)

  predicate OffsetGT(lhs: CompoundOffset, rhs: CompoundOffset) {
    if lhs.generation == rhs.generation then
      if lhs.partition == rhs.partition then lhs.offset > rhs.offset
      else lhs.partition > rhs.partition
    else lhs.generation > rhs.generation
  }

  predicate OffsetGTE(lhs: CompoundOffset, rhs: CompoundOffset) {
    if lhs.generation == rhs.generation then
      if lhs.partition == rhs.partition then lhs.offset >= rhs.offset
      else lhs.partition >= rhs.partition
    else lhs.generation >= rhs.generation
  }

  /** A strict total order, lexicographic in generation, partition and offset. */
  lemma OffsetOrder(a: CompoundOffset, b: CompoundOffset, c: CompoundOffset)
    ensures !OffsetGT(a, a)
    ensures OffsetGT(a, b) && OffsetGT(b, c) ==> OffsetGT(a, c)
    ensures a == b || OffsetGT(a, b) || OffsetGT(b, a)
    ensures OffsetGTE(a, b) <==> OffsetGT(a, b) || a == b
    ensures OffsetGT(a, b) <==> a.generation > b.generation
                                || (a.generation == b.generation && a.partition > b.partition)
                                || (a.generation == b.generation && a.partition == b.partition && a.offset > b.offset)
  {
  }
}

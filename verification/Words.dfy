/** Sizes of the machine integers that the source computes with. */
module Words {
  const UINT64_SIZE: nat := 0x1_0000_0000_0000_0000
  const INT64_LIMIT: nat := 0x8000_0000_0000_0000
}

/** Constants of the machine and of the kernel's interface. */
module Constants {

  const ERROR: int := -1

  const PAGESIZE: int := 0x2000
  const VMEM_1_BASE: int := 0x100000
  const VMEM_1_LIMIT: int := 0x200000
  const MAX_PT_LEN: nat := 128  // page table entries of a region
}

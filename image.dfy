/**
 * The one fact both revisions read from the host process: the entry-point
 * relative virtual address of the executable the DLL was injected into.
 *
 * The source obtains it by walking the loaded image's headers
 * (module base -> DOS header -> e_lfanew -> NT headers ->
 * OptionalHeader.AddressOfEntryPoint). That walk is not modelled: the value
 * is an input to everything else. AddressOfEntryPoint is a 32-bit DWORD,
 * widened to uintptr_t, so every RVA fits in 32 bits.
 */
module Image {

  /** An entry-point RVA as read from the optional header (a DWORD). */
  type Rva = n: nat | n < 0x1_0000_0000
}

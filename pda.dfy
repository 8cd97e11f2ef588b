/** Account addresses and program-derived addresses (PDAs).
    A derived address is a deterministic function of its seeds and the
    deriving program's id; it lies off the ed25519 curve, so no private
    key for it exists: no transaction signature can carry it, and a
    program signs for it only through `invoke_signed`. */
module Pda {
  import opened Numeric

  /** `Key` is an address with a keypair behind it (a wallet, or a
      generated account); `Derived` is the address computed from seeds. */
  datatype Address = Key(id: nat) | Derived(seeds: seq<Bytes>, programId: Address)

  /** The all-zero public key, `Pubkey::default()`. */
  const DEFAULT_PUBKEY: Address := Key(0)

  /** The largest bump seed; the canonical bump search starts here. */
  const MAX_BUMP: Byte := 255

  /** Only keypair addresses can sign a transaction themselves. */
  predicate OnCurve(a: Address) {
    a.Key?
  }

  /** `Pubkey::create_program_address(seeds, program_id)`. */
  function CreateProgramAddress(seeds: seq<Bytes>, programId: Address): (a: Address)
    ensures !OnCurve(a)
  {
    Derived(seeds, programId)
  }

  /** `Pubkey::find_program_address(seeds, program_id)`: the derived
      address together with the bump seed that re-derives it. */
  function FindProgramAddress(seeds: seq<Bytes>, programId: Address): (r: (Address, Byte))
    ensures r.0 == CreateProgramAddress(seeds + [[r.1]], programId)
    ensures !OnCurve(r.0)
  {
    (CreateProgramAddress(seeds + [[MAX_BUMP]], programId), MAX_BUMP)
  }

  /** Different seeds or different programs never give the same derived
      address. The model obtains this from `Derived` being a constructor:
      it stands for the collision resistance of the SHA-256 derivation,
      which is assumed here, not proved. */
  lemma FindProgramAddressInjective(s1: seq<Bytes>, p1: Address, s2: seq<Bytes>, p2: Address)
    requires FindProgramAddress(s1, p1).0 == FindProgramAddress(s2, p2).0
    ensures s1 == s2 && p1 == p2
  {
    var a := FindProgramAddress(s1, p1).0;
    assert a.seeds == s1 + [[MAX_BUMP]] == s2 + [[MAX_BUMP]];
    assert s1 == (s1 + [[MAX_BUMP]])[..|s1|];
    assert s2 == (s2 + [[MAX_BUMP]])[..|s2|];
  }
}

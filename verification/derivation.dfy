/** Program-derived addresses.

    The runtime hashes (tag, base, bump) into a candidate address; the
    candidate is usable only when the hash lands off the signature curve.
    The hash itself is abstracted: `Derived(tag, base, bump)` is the
    candidate, and `Runtime.onCurve` is the fixed set of candidates that
    happen to land on the curve. Creating an address with a given bump is a
    lookup; finding one searches bumps from 255 down to 1 and settles on the
    first usable one, the canonical bump. Bump 0 is never tried by the
    search. */
module Derivation {
  import opened Types

  /** Seed tag of the mint-authority address (programs/ctuc/src/lib.rs:95). */
  const AuthorityLabel: string := "authority"

  /** Seed tag of the configuration record (programs/ctuc/src/lib.rs:102). */
  const ConfigLabel: string := "config"

  /** The fixed outcome of hashing: which candidates land on the curve. */
  datatype Runtime = Runtime(onCurve: set<Pubkey>)

  /** Derives the address for (tag, base, bump), failing when the
      candidate lies on the curve. */
  function CreateProgramAddress(rt: Runtime, tag: string, base: Pubkey, bump: u8): (r: Option<Pubkey>)
    ensures r.Some? <==> Derived(tag, base, bump) !in rt.onCurve
    ensures r.Some? ==> r.value == Derived(tag, base, bump)
  {
    var candidate := Derived(tag, base, bump);
    if candidate in rt.onCurve then None else Some(candidate)
  }

  predicate Viable(rt: Runtime, tag: string, base: Pubkey, bump: u8) {
    CreateProgramAddress(rt, tag, base, bump).Some?
  }

  /** Tries bumps `from`, `from - 1`, ..., 1 and returns the first viable one. */
  function SearchBump(rt: Runtime, tag: string, base: Pubkey, from: u8): (r: Option<u8>)
    ensures r.Some? ==> 1 <= r.value <= from && Viable(rt, tag, base, r.value)
    ensures r.Some? ==> forall b: u8 | r.value < b <= from :: !Viable(rt, tag, base, b)
    ensures r.None? ==> forall b: u8 | 1 <= b <= from :: !Viable(rt, tag, base, b)
    decreases from
  {
    if from < 1 then None
    else if Viable(rt, tag, base, from) then Some(from)
    else SearchBump(rt, tag, base, from - 1)
  }

  /** The canonical address and bump for (tag, base): the highest viable
      bump, or `None` when the candidates for bumps 255 down to 1 all lie on
      the curve (the runtime then aborts the transaction). */
  function FindProgramAddress(rt: Runtime, tag: string, base: Pubkey): (r: Option<(Pubkey, u8)>)
    ensures r.Some? ==> CreateProgramAddress(rt, tag, base, r.value.1) == Some(r.value.0)
    ensures r.Some? ==> 1 <= r.value.1 && forall b: u8 | r.value.1 < b :: !Viable(rt, tag, base, b)
    ensures r.None? ==> forall b: u8 | 1 <= b :: !Viable(rt, tag, base, b)
  {
    match SearchBump(rt, tag, base, 0xFF)
    case None => None
    case Some(bump) => Some((Derived(tag, base, bump), bump))
  }

  /** A bump is canonical when it is one the search tries, it is viable, and
      every higher bump is not. */
  ghost predicate Canonical(rt: Runtime, tag: string, base: Pubkey, bump: u8) {
    && 1 <= bump
    && Viable(rt, tag, base, bump)
    && forall b: u8 | bump < b :: !Viable(rt, tag, base, b)
  }

  /** The search returns exactly the canonical bump and its address. */
  lemma FindIsCanonical(rt: Runtime, tag: string, base: Pubkey, bump: u8)
    ensures FindProgramAddress(rt, tag, base) == Some((Derived(tag, base, bump), bump))
            <==> Canonical(rt, tag, base, bump)
  {
    var r := FindProgramAddress(rt, tag, base);
    if Canonical(rt, tag, base, bump) {
      assert r.Some?;
      var b' := r.value.1;
      assert Viable(rt, tag, base, b');
      assert !(bump < b') && !(b' < bump);
    }
  }

  /** The configuration record's address for `mint`, if one can be derived. */
  function ConfigAddress(rt: Runtime, mint: Pubkey): (r: Option<Pubkey>)
    ensures r.Some? <==> FindProgramAddress(rt, ConfigLabel, mint).Some?
    ensures r.Some? ==> r.value.Derived? && r.value.tag == ConfigLabel && r.value.base == mint
                        && Canonical(rt, ConfigLabel, mint, r.value.bump)
  {
    match FindProgramAddress(rt, ConfigLabel, mint)
    case None => None
    case Some((addr, _)) => Some(addr)
  }

  /** Address derivation is injective: one address has one set of seeds. */
  lemma CreateIsInjective(rt: Runtime, l1: string, base1: Pubkey, bump1: u8, l2: string, base2: Pubkey, bump2: u8)
    requires CreateProgramAddress(rt, l1, base1, bump1).Some?
    requires CreateProgramAddress(rt, l1, base1, bump1) == CreateProgramAddress(rt, l2, base2, bump2)
    ensures l1 == l2 && base1 == base2 && bump1 == bump2
  {
  }

  /** The mint-authority address and the configuration address of a mint
      never coincide, whatever the bumps, because their tags differ. */
  lemma AuthorityIsNotConfig(rt: Runtime, mint: Pubkey, bump: u8)
    requires CreateProgramAddress(rt, AuthorityLabel, mint, bump).Some?
    ensures ConfigAddress(rt, mint) != CreateProgramAddress(rt, AuthorityLabel, mint, bump)
  {
  }

  /** Derived addresses of one tag tell their base addresses apart. */
  lemma ConfigAddressIsInjective(rt: Runtime, m1: Pubkey, m2: Pubkey)
    requires ConfigAddress(rt, m1).Some?
    requires ConfigAddress(rt, m1) == ConfigAddress(rt, m2)
    ensures m1 == m2
  {
  }
}

/** The instruction list of `revokeAuthority` (src/txHandler.ts:629-689): a compute-unit price,
    then a revocation for each authority over the token that the user still holds. */
module RevokeAuthority {
  import opened Wrappers

  /** The compute-unit price the transaction asks for, in micro-lamports. */
  const ComputeUnitMicroLamports: nat := 400_000

  /** The authority fields of a mint account (`MintLayout`). An option of 1 means the
      authority is set. */
  datatype MintInfo = MintInfo(
    mintAuthority: string, mintAuthorityOption: int,
    freezeAuthority: string, freezeAuthorityOption: int)

  /** The fields of the token's metadata account that the decision reads. */
  datatype MetadataInfo = MetadataInfo(updateAuthority: string, isMutable: bool)

  datatype AuthorityType = Minting | Freezing

  datatype RevokeInstruction =
    | SetComputeUnitPrice(microLamports: nat)
    | RevokeTokenAuthority(authorityType: AuthorityType, mint: string, currentAuthority: string)
    | RevokeMetadataAuthority(mint: string, updateAuthority: string)

  const TokenNotFound: string := "Token not found"
  const MintingRevoked: string := "Minting authority already been revoked"
  const NoMintingAuthority: string := "You don't have minting authority"
  const FreezingRevoked: string := "Freezing authority already been revoked"
  const NoFreezingAuthority: string := "You don't have freezing authority"
  const UpdateRevoked: string := "Update authority already been revoked"
  const NoUpdateAuthority: string := "You don't have metadata update authority"

  /** The user holds the minting authority. */
  predicate HoldsMinting(m: MintInfo, user: string)
  {
    m.mintAuthority == user && m.mintAuthorityOption == 1
  }

  /** The user holds the freezing authority. */
  predicate HoldsFreezing(m: MintInfo, user: string)
  {
    m.freezeAuthority == user && m.freezeAuthorityOption == 1
  }

  /** The user holds the update authority of metadata that can still change. */
  predicate HoldsUpdate(md: MetadataInfo, user: string)
  {
    md.updateAuthority == user && md.isMutable
  }

  /** The note logged for the minting authority: none when the user holds it. */
  function MintingNote(m: MintInfo, user: string): seq<string>
  {
    if HoldsMinting(m, user) then []
    else [if m.mintAuthorityOption == 0 then MintingRevoked else NoMintingAuthority]
  }

  /** The note logged for the freezing authority: none when the user holds it. */
  function FreezingNote(m: MintInfo, user: string): seq<string>
  {
    if HoldsFreezing(m, user) then []
    else [if m.freezeAuthorityOption == 0 then FreezingRevoked else NoFreezingAuthority]
  }

  /** The note logged for the metadata: none when there is no metadata or the user holds it. */
  function MetadataNote(metadata: Option<MetadataInfo>, user: string): seq<string>
  {
    if metadata.None? || HoldsUpdate(metadata.value, user) then []
    else [if !metadata.value.isMutable then UpdateRevoked else NoUpdateAuthority]
  }

  function Count(b: bool): nat
  {
    if b then 1 else 0
  }

  /** The revocations each authority contributes: one when the user holds it, none otherwise. */
  function MintingRevocation(m: MintInfo, token: string, user: string): seq<RevokeInstruction>
  {
    if HoldsMinting(m, user) then [RevokeTokenAuthority(Minting, token, user)] else []
  }

  function FreezingRevocation(m: MintInfo, token: string, user: string): seq<RevokeInstruction>
  {
    if HoldsFreezing(m, user) then [RevokeTokenAuthority(Freezing, token, user)] else []
  }

  function MetadataRevocation(metadata: Option<MetadataInfo>, token: string, user: string): seq<RevokeInstruction>
  {
    if metadata.Some? && HoldsUpdate(metadata.value, user) then [RevokeMetadataAuthority(token, user)] else []
  }

  /** The assembled list: the price first, each revocation exactly when its authority is held,
      in mint-freeze-metadata order. */
  lemma AssembledListFacts(token: string, user: string, m: MintInfo, metadata: Option<MetadataInfo>)
    ensures var l := [SetComputeUnitPrice(ComputeUnitMicroLamports)] + MintingRevocation(m, token, user) +
                     FreezingRevocation(m, token, user) + MetadataRevocation(metadata, token, user);
            |l| >= 1 && l[0] == SetComputeUnitPrice(ComputeUnitMicroLamports) &&
            (RevokeTokenAuthority(Minting, token, user) in l <==> HoldsMinting(m, user)) &&
            (RevokeTokenAuthority(Freezing, token, user) in l <==> HoldsFreezing(m, user)) &&
            (RevokeMetadataAuthority(token, user) in l <==> metadata.Some? && HoldsUpdate(metadata.value, user)) &&
            |l| == 1 + Count(HoldsMinting(m, user)) + Count(HoldsFreezing(m, user)) +
                   Count(metadata.Some? && HoldsUpdate(metadata.value, user)) &&
            (HoldsMinting(m, user) ==> l[1] == RevokeTokenAuthority(Minting, token, user)) &&
            (HoldsFreezing(m, user) ==>
               l[1 + Count(HoldsMinting(m, user))] == RevokeTokenAuthority(Freezing, token, user)) &&
            (metadata.Some? && HoldsUpdate(metadata.value, user) ==>
               l[|l| - 1] == RevokeMetadataAuthority(token, user))
  {
    var mi, fr, md := MintingRevocation(m, token, user), FreezingRevocation(m, token, user),
                      MetadataRevocation(metadata, token, user);
    var l := [SetComputeUnitPrice(ComputeUnitMicroLamports)] + mi + fr + md;
    assert l == [l[0]] + mi + fr + md;
    assert RevokeTokenAuthority(Minting, token, user) !in fr + md;
    assert RevokeTokenAuthority(Freezing, token, user) !in mi + md;
    assert RevokeMetadataAuthority(token, user) !in mi + fr;
  }

  /** The assembled notes: one for each authority the user does not hold, saying why. */
  lemma AssembledNotesFacts(token: string, user: string, m: MintInfo, metadata: Option<MetadataInfo>)
    ensures var notes := MintingNote(m, user) + FreezingNote(m, user) + MetadataNote(metadata, user);
            (!HoldsMinting(m, user) ==>
               (if m.mintAuthorityOption == 0 then MintingRevoked else NoMintingAuthority) in notes) &&
            (!HoldsFreezing(m, user) ==>
               (if m.freezeAuthorityOption == 0 then FreezingRevoked else NoFreezingAuthority) in notes) &&
            (metadata.Some? && !HoldsUpdate(metadata.value, user) ==>
               (if !metadata.value.isMutable then UpdateRevoked else NoUpdateAuthority) in notes) &&
            |notes| + 1 + |MintingRevocation(m, token, user)| + |FreezingRevocation(m, token, user)| +
              |MetadataRevocation(metadata, token, user)| == 3 + Count(metadata.Some?)
  {
    var mn, fn, dn := MintingNote(m, user), FreezingNote(m, user), MetadataNote(metadata, user);
    var notes := mn + fn + dn;
    assert forall x :: x in mn ==> x in notes;
    assert forall x :: x in fn ==> x in notes;
    assert forall x :: x in dn ==> x in notes;
  }

  /** One check of lines 648-667: push the revocation when the authority is held, otherwise log
      why not. */
  method CheckMinting(m: MintInfo, token: string, user: string, l: seq<RevokeInstruction>, notes: seq<string>)
    returns (l': seq<RevokeInstruction>, notes': seq<string>)
    ensures l' == l + MintingRevocation(m, token, user) && notes' == notes + MintingNote(m, user)
  {
    l', notes' := l, notes;
    if HoldsMinting(m, user) {
      l' := l' + [RevokeTokenAuthority(Minting, token, user)];
    } else if m.mintAuthorityOption == 0 {
      notes' := notes' + [MintingRevoked];
    } else {
      notes' := notes' + [NoMintingAuthority];
    }
  }

  method CheckFreezing(m: MintInfo, token: string, user: string, l: seq<RevokeInstruction>, notes: seq<string>)
    returns (l': seq<RevokeInstruction>, notes': seq<string>)
    ensures l' == l + FreezingRevocation(m, token, user) && notes' == notes + FreezingNote(m, user)
  {
    l', notes' := l, notes;
    if HoldsFreezing(m, user) {
      l' := l' + [RevokeTokenAuthority(Freezing, token, user)];
    } else if m.freezeAuthorityOption == 0 {
      notes' := notes' + [FreezingRevoked];
    } else {
      notes' := notes' + [NoFreezingAuthority];
    }
  }

  method CheckMetadata(md: MetadataInfo, token: string, user: string, l: seq<RevokeInstruction>, notes: seq<string>)
    returns (l': seq<RevokeInstruction>, notes': seq<string>)
    ensures l' == l + MetadataRevocation(Some(md), token, user) && notes' == notes + MetadataNote(Some(md), user)
  {
    l', notes' := l, notes;
    if HoldsUpdate(md, user) {
      l' := l' + [RevokeMetadataAuthority(token, user)];
    } else if !md.isMutable {
      notes' := notes' + [UpdateRevoked];
    } else {
      notes' := notes' + [NoUpdateAuthority];
    }
  }

  /** Lines 637-667: the instructions for `token` and the messages logged while choosing them.
      The account fetch is given by its result, with a rejected fetch as two missing accounts.
      `ixs` is None when the mint account does not exist. */
  method RevokeInstructions(token: string, user: string, mint: Option<MintInfo>, metadata: Option<MetadataInfo>)
    returns (ixs: Option<seq<RevokeInstruction>>, notes: seq<string>)
    ensures ixs.None? <==> mint.None?
    ensures mint.None? ==> notes == [TokenNotFound]
    ensures ixs.Some? ==>
              var l := ixs.value;
              var m := mint.value;
              // it always starts with the compute-unit price, so it is never empty
              |l| >= 1 && l[0] == SetComputeUnitPrice(ComputeUnitMicroLamports) &&
              (RevokeTokenAuthority(Minting, token, user) in l <==> HoldsMinting(m, user)) &&
              (RevokeTokenAuthority(Freezing, token, user) in l <==> HoldsFreezing(m, user)) &&
              (RevokeMetadataAuthority(token, user) in l <==> metadata.Some? && HoldsUpdate(metadata.value, user)) &&
              |l| == 1 + Count(HoldsMinting(m, user)) + Count(HoldsFreezing(m, user)) +
                     Count(metadata.Some? && HoldsUpdate(metadata.value, user))
    // in order: mint, then freeze, then metadata
    ensures ixs.Some? && HoldsMinting(mint.value, user) ==>
              ixs.value[1] == RevokeTokenAuthority(Minting, token, user)
    ensures ixs.Some? && HoldsFreezing(mint.value, user) ==>
              ixs.value[1 + Count(HoldsMinting(mint.value, user))] == RevokeTokenAuthority(Freezing, token, user)
    ensures ixs.Some? && metadata.Some? && HoldsUpdate(metadata.value, user) ==>
              ixs.value[|ixs.value| - 1] == RevokeMetadataAuthority(token, user)
    // an authority that is not revoked is reported, as already revoked or as not the user's
    ensures mint.Some? && !HoldsMinting(mint.value, user) ==>
              (if mint.value.mintAuthorityOption == 0 then MintingRevoked else NoMintingAuthority) in notes
    ensures mint.Some? && !HoldsFreezing(mint.value, user) ==>
              (if mint.value.freezeAuthorityOption == 0 then FreezingRevoked else NoFreezingAuthority) in notes
    ensures mint.Some? && metadata.Some? && !HoldsUpdate(metadata.value, user) ==>
              (if !metadata.value.isMutable then UpdateRevoked else NoUpdateAuthority) in notes
    ensures mint.Some? ==> |notes| + |ixs.value| == 3 + Count(metadata.Some?)
    // the notes come in the order the checks run: minting, freezing, then metadata
    ensures mint.Some? ==>
              var m := mint.value;
              notes == MintingNote(m, user) + FreezingNote(m, user) + MetadataNote(metadata, user)
  {
    notes := [];
    if mint.None? {
      notes := notes + [TokenNotFound];
      return None, notes;
    }
    var m := mint.value;
    var l := [SetComputeUnitPrice(ComputeUnitMicroLamports)];
    l, notes := CheckMinting(m, token, user, l, notes);
    l, notes := CheckFreezing(m, token, user, l, notes);
    if metadata.Some? {
      l, notes := CheckMetadata(metadata.value, token, user, l, notes);
    }
    assert notes == MintingNote(m, user) + FreezingNote(m, user) + MetadataNote(metadata, user);
    assert l == [SetComputeUnitPrice(ComputeUnitMicroLamports)] + MintingRevocation(m, token, user) +
                FreezingRevocation(m, token, user) + MetadataRevocation(metadata, token, user);
    AssembledListFacts(token, user, m, metadata);
    AssembledNotesFacts(token, user, m, metadata);
    ixs := Some(l);
  }
}

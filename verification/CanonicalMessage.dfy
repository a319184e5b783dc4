/** The canonical claim messages a claimant signs, and what is rejected. The digest of the recipient key is a parameter. */
module CanonicalMessage {
  import opened Encodings

  const ANT_HEADER := "ar.io ant-escrow claim"
  const ESCROW_HEADER := "ar.io escrow claim"
  const U64_MAX: nat := 0xFFFF_FFFF_FFFF_FFFF

  type Bytes = seq<Byte>
  type Digest = d: seq<Byte> | |d| == 32 witness seq(32, i => 0)

  datatype AntClaim = AntClaim(mint: Bytes, claimant: Bytes, nonce: Bytes, network: string, recipientKey: Bytes)

  datatype EscrowClaim = EscrowClaim(
    vault: bool, assetId: Bytes, amount: int, claimant: Bytes, nonce: Bytes, network: string, recipientKey: Bytes)

  datatype MessageError = BadMint | BadAssetId | BadClaimant | BadNonce | BadAmount | NoRecipient

  datatype Result = Ok(message: seq<nat>) | Err(error: MessageError)

  /** Lines joined by line feeds, no trailing one. */
  function Join(lines: seq<string>): string {
    if lines == [] then ""
    else if |lines| == 1 then lines[0]
    else Join(lines[..|lines| - 1]) + "\n" + lines[|lines| - 1]
  }

  function AntLines(sha: Bytes -> Digest, a: AntClaim): seq<string> {
    [ANT_HEADER,
     "network: " + a.network,
     "recipient: " + Base64Url(sha(a.recipientKey)),
     "ant: " + Base58(a.mint),
     "claimant: " + Base58(a.claimant),
     "nonce: " + Hex(a.nonce)]
  }

  function BuildAnt(sha: Bytes -> Digest, a: AntClaim): Result {
    if |a.mint| != 32 then Err(BadMint)
    else if |a.claimant| != 32 then Err(BadClaimant)
    else if |a.nonce| != 32 then Err(BadNonce)
    else if a.recipientKey == [] then Err(NoRecipient)
    else Ok(Utf8(Join(AntLines(sha, a))))
  }

  function EscrowLines(sha: Bytes -> Digest, e: EscrowClaim): seq<string>
    requires e.amount >= 0
  {
    [ESCROW_HEADER,
     "network: " + e.network,
     "recipient: " + Base64Url(sha(e.recipientKey)),
     "type: " + if e.vault then "vault" else "token",
     "asset: " + Hex(e.assetId),
     "amount: " + Decimal(e.amount),
     "claimant: " + Base58(e.claimant),
     "nonce: " + Hex(e.nonce)]
  }

  function BuildEscrow(sha: Bytes -> Digest, e: EscrowClaim): Result {
    if |e.assetId| != 32 then Err(BadAssetId)
    else if |e.claimant| != 32 then Err(BadClaimant)
    else if |e.nonce| != 32 then Err(BadNonce)
    else if e.amount < 0 || e.amount > U64_MAX then Err(BadAmount)
    else if e.recipientKey == [] then Err(NoRecipient)
    else Ok(Utf8(Join(EscrowLines(sha, e))))
  }

  // ---------------------------------------------------------------------------
  // Which lines hold no line feed
  // ---------------------------------------------------------------------------

  predicate OneLine(s: string) {
    '\n' !in s
  }

  lemma LabelledLine(name: string, a: string)
    requires OneLine(name) && OneLine(a)
    ensures OneLine(name + a)
  {
  }

  lemma AntLinesAreLines(sha: Bytes -> Digest, a: AntClaim)
    ensures forall i :: 2 <= i < |AntLines(sha, a)| ==> OneLine(AntLines(sha, a)[i])
  {
    Base64UrlOneLine(sha(a.recipientKey));
    Base58OneLine(a.mint);
    Base58OneLine(a.claimant);
    HexOneLine(a.nonce);
    LabelledLine("recipient: ", Base64Url(sha(a.recipientKey)));
    LabelledLine("ant: ", Base58(a.mint));
    LabelledLine("claimant: ", Base58(a.claimant));
    LabelledLine("nonce: ", Hex(a.nonce));
  }

  lemma EscrowLinesAreLines(sha: Bytes -> Digest, e: EscrowClaim)
    requires e.amount >= 0
    ensures forall i :: 2 <= i < |EscrowLines(sha, e)| ==> OneLine(EscrowLines(sha, e)[i])
  {
    Base64UrlOneLine(sha(e.recipientKey));
    HexOneLine(e.assetId);
    DecimalOneLine(e.amount);
    Base58OneLine(e.claimant);
    HexOneLine(e.nonce);
    LabelledLine("recipient: ", Base64Url(sha(e.recipientKey)));
    LabelledLine("type: ", if e.vault then "vault" else "token");
    LabelledLine("asset: ", Hex(e.assetId));
    LabelledLine("amount: ", Decimal(e.amount));
    LabelledLine("claimant: ", Base58(e.claimant));
    LabelledLine("nonce: ", Hex(e.nonce));
  }
}

/**
 Reading a claim message the way its verifier sees it: bytes to text, text to lines, each line by its label, each
 value by its own decoder. What is read is what was built.
 */
module MessageReader {
  import opened Prelude
  import opened Encodings
  import opened CanonicalMessage
  import opened Decoders

  // ---------------------------------------------------------------------------
  // Lines
  // ---------------------------------------------------------------------------

  /** Cut a text at its line feeds. */
  function Split(s: string): (lines: seq<string>)
    ensures |lines| > 0
  {
    if s == "" then [""] else Put(s[0], Split(s[1..]))
  }

  /** One character more in front: a line feed opens a line, and everything else lengthens the first. */
  function Put(ch: char, lines: seq<string>): (more: seq<string>)
    requires |lines| > 0
    ensures |more| > 0
  {
    if ch == '\n' then [""] + lines else [[ch] + lines[0]] + lines[1..]
  }

  lemma PutInFront(ch: char, xs: seq<string>, ys: seq<string>)
    requires |xs| > 0
    ensures Put(ch, xs + ys) == Put(ch, xs) + ys
  {
    assert (xs + ys)[1..] == xs[1..] + ys;
  }

  /** Put lines together again. */
  function Unsplit(lines: seq<string>): string {
    if lines == [] then "" else if |lines| == 1 then lines[0] else lines[0] + "\n" + Unsplit(lines[1..])
  }

  lemma {:induction false} SplitLosesNothing(s: string)
    ensures Unsplit(Split(s)) == s
  {
    if s != "" {
      var rest := Split(s[1..]);
      SplitLosesNothing(s[1..]);
      if s[0] == '\n' {
        assert Split(s)[1..] == rest;
        assert "" + "\n" + s[1..] == s;
      } else {
        assert Split(s)[1..] == rest[1..];
        assert [s[0]] + s[1..] == s;
        assert |rest| > 1 ==> [s[0]] + rest[0] + "\n" + Unsplit(rest[1..]) == [s[0]] + (rest[0] + "\n" + Unsplit(rest[1..]));
      }
    }
  }

  lemma SplitStep(ch: char, s: string)
    ensures Split([ch] + s) == Put(ch, Split(s))
  {
    assert ([ch] + s)[1..] == s;
  }

  lemma {:induction false} SplitAtFeed(a: string, b: string)
    ensures Split(a + "\n" + b) == Split(a) + Split(b)
  {
    if a == "" {
      SplitStep('\n', b);
      assert a + "\n" + b == ['\n'] + b;
    } else {
      SplitAtFeed(a[1..], b);
      assert a + "\n" + b == [a[0]] + (a[1..] + "\n" + b);
      SplitStep(a[0], a[1..] + "\n" + b);
      PutInFront(a[0], Split(a[1..]), Split(b));
    }
  }

  lemma {:induction false} OneLineSplits(s: string)
    requires OneLine(s)
    ensures Split(s) == [s]
  {
    if s != "" {
      OneLineSplits(s[1..]);
      assert [s[0]] + s[1..] == s;
    }
  }

  /** Joined lines split into the same lines, but for the second one, which may hold line feeds. */
  lemma {:induction false} JoinSplits(lines: seq<string>)
    requires |lines| >= 2 && OneLine(lines[0]) && forall i :: 2 <= i < |lines| ==> OneLine(lines[i])
    ensures Split(Join(lines)) == [lines[0]] + Split(lines[1]) + lines[2..]
    decreases |lines|
  {
    var n := |lines| - 1;
    SplitAtFeed(Join(lines[..n]), lines[n]);
    if n >= 2 {
      JoinSplits(lines[..n]);
      OneLineSplits(lines[n]);
      assert lines[2..n] + [lines[n]] == lines[2..];
      assert lines[..n][2..] == lines[2..n];
    } else {
      OneLineSplits(lines[0]);
      assert lines[..1] == [lines[0]];
      assert lines[2..] == [];
    }
  }

  // ---------------------------------------------------------------------------
  // The readers
  // ---------------------------------------------------------------------------

  /** What stands behind the name of a line. */
  function After(name: string, line: string): Option<string> {
    if name <= line then Some(line[|name|..]) else None
  }

  function Then<A, B>(x: Option<A>, f: A -> Option<B>): Option<B> {
    match x
    case Some(a) => f(a)
    case None => None
  }

  /** The fields of a token or vault message; the recipient is the digest of its key. */
  datatype EscrowFields = EscrowFields(
    network: string, recipient: seq<nat>, kind: string, asset: seq<nat>, amount: nat, claimant: seq<nat>, nonce: seq<nat>)

  datatype AntFields = AntFields(network: string, recipient: seq<nat>, mint: seq<nat>, claimant: seq<nat>, nonce: seq<nat>)

  /** The first line, the last ones, and what is between them: the network may have line feeds of its own. */
  function Fold(lines: seq<string>, n: nat): seq<string>
    requires 2 <= n <= |lines|
  {
    [lines[0], Unsplit(lines[1..|lines| - (n - 2)])] + lines[|lines| - (n - 2)..]
  }

  function EscrowOf(lines: seq<string>): Option<EscrowFields>
    requires |lines| == 8
  {
    if lines[0] != "ar.io escrow claim" then None
    else
      match (After("network: ", lines[1]), Then(After("recipient: ", lines[2]), ReadBase64Url), After("type: ", lines[3]),
             Then(After("asset: ", lines[4]), ReadHex), Then(After("amount: ", lines[5]), ReadDecimal),
             Then(After("claimant: ", lines[6]), ReadBase58), Then(After("nonce: ", lines[7]), ReadHex))
      case (Some(network), Some(recipient), Some(kind), Some(asset), Some(amount), Some(claimant), Some(nonce)) =>
        Some(EscrowFields(network, recipient, kind, asset, amount, claimant, nonce))
      case _ => None
  }

  function AntOf(lines: seq<string>): Option<AntFields>
    requires |lines| == 6
  {
    if lines[0] != "ar.io ant-escrow claim" then None
    else
      match (After("network: ", lines[1]), Then(After("recipient: ", lines[2]), ReadBase64Url),
             Then(After("ant: ", lines[3]), ReadBase58), Then(After("claimant: ", lines[4]), ReadBase58),
             Then(After("nonce: ", lines[5]), ReadHex))
      case (Some(network), Some(recipient), Some(mint), Some(claimant), Some(nonce)) =>
        Some(AntFields(network, recipient, mint, claimant, nonce))
      case _ => None
  }

  /** The text of a message as n lines. */
  function LinesOf(message: seq<nat>, n: nat): (lines: Option<seq<string>>)
    requires n >= 2
    ensures lines.Some? ==> |lines.value| == n
  {
    match ReadUtf8(message)
    case None => None
    case Some(text) => if |Split(text)| < n then None else Some(Fold(Split(text), n))
  }

  function ReadEscrow(message: seq<nat>): Option<EscrowFields> {
    match LinesOf(message, 8)
    case None => None
    case Some(lines) => EscrowOf(lines)
  }

  function ReadAnt(message: seq<nat>): Option<AntFields> {
    match LinesOf(message, 6)
    case None => None
    case Some(lines) => AntOf(lines)
  }

  // ---------------------------------------------------------------------------
  // Round trips
  // ---------------------------------------------------------------------------

  lemma LabelRead(name: string, value: string)
    ensures After(name, name + value) == Some(value)
  {
    assert (name + value)[|name|..] == value;
  }

  /** Joined lines come back from the bytes of their text, whatever the second line holds. */
  lemma LinesRead(lines: seq<string>)
    requires |lines| >= 2 && OneLine(lines[0]) && forall i :: 2 <= i < |lines| ==> OneLine(lines[i])
    ensures LinesOf(Utf8(Join(lines)), |lines|) == Some(lines)
  {
    var text, others := Join(lines), |lines| - 2;
    var read := Split(text);
    Utf8Reads(text);
    JoinSplits(lines);
    SplitLosesNothing(lines[1]);
    assert read[1..|read| - others] == Split(lines[1]);
    assert read[|read| - others..] == lines[2..];
    assert [lines[0], lines[1]] + lines[2..] == lines;
  }

  lemma EscrowLinesRead(sha: Bytes -> Digest, e: EscrowClaim)
    requires e.amount >= 0
    ensures EscrowOf(EscrowLines(sha, e)) ==
            Some(EscrowFields(e.network, sha(e.recipientKey), if e.vault then "vault" else "token", e.assetId, e.amount,
                              e.claimant, e.nonce))
  {
    LabelRead("network: ", e.network);
    LabelRead("recipient: ", Base64Url(sha(e.recipientKey)));
    LabelRead("type: ", if e.vault then "vault" else "token");
    LabelRead("asset: ", Hex(e.assetId));
    LabelRead("amount: ", Decimal(e.amount));
    LabelRead("claimant: ", Base58(e.claimant));
    LabelRead("nonce: ", Hex(e.nonce));
    Base64UrlReads(sha(e.recipientKey));
    HexReads(e.assetId);
    DecimalReads(e.amount);
    Base58Reads(e.claimant);
    HexReads(e.nonce);
  }

  lemma AntLinesRead(sha: Bytes -> Digest, a: AntClaim)
    ensures AntOf(AntLines(sha, a)) == Some(AntFields(a.network, sha(a.recipientKey), a.mint, a.claimant, a.nonce))
  {
    LabelRead("network: ", a.network);
    LabelRead("recipient: ", Base64Url(sha(a.recipientKey)));
    LabelRead("ant: ", Base58(a.mint));
    LabelRead("claimant: ", Base58(a.claimant));
    LabelRead("nonce: ", Hex(a.nonce));
    Base64UrlReads(sha(a.recipientKey));
    Base58Reads(a.mint);
    Base58Reads(a.claimant);
    HexReads(a.nonce);
  }

  /**
   Reading a built token or vault message gives back the kind by its word and every other field of the claim, for
   every network text; of the recipient's key it gives the digest.
   */
  lemma EscrowMessageReads(sha: Bytes -> Digest, e: EscrowClaim)
    requires BuildEscrow(sha, e).Ok?
    ensures ReadEscrow(BuildEscrow(sha, e).message) ==
            Some(EscrowFields(e.network, sha(e.recipientKey), if e.vault then "vault" else "token", e.assetId, e.amount,
                              e.claimant, e.nonce))
  {
    EscrowLinesAreLines(sha, e);
    EscrowLinesRead(sha, e);
    EightLinesRead(EscrowLines(sha, e));
  }

  lemma EightLinesRead(lines: seq<string>)
    requires |lines| == 8 && OneLine(lines[0]) && forall i :: 2 <= i < |lines| ==> OneLine(lines[i])
    ensures ReadEscrow(Utf8(Join(lines))) == EscrowOf(lines)
  {
    LinesRead(lines);
  }

  /** The same for an ANT message. */
  lemma AntMessageReads(sha: Bytes -> Digest, a: AntClaim)
    requires BuildAnt(sha, a).Ok?
    ensures ReadAnt(BuildAnt(sha, a).message) == Some(AntFields(a.network, sha(a.recipientKey), a.mint, a.claimant, a.nonce))
  {
    AntLinesAreLines(sha, a);
    AntLinesRead(sha, a);
    SixLinesRead(AntLines(sha, a));
  }

  lemma SixLinesRead(lines: seq<string>)
    requires |lines| == 6 && OneLine(lines[0]) && forall i :: 2 <= i < |lines| ==> OneLine(lines[i])
    ensures ReadAnt(Utf8(Join(lines))) == AntOf(lines)
  {
    LinesRead(lines);
  }

  lemma OneLineEach(lines: seq<string>)
    requires |lines| >= 2 && forall i :: 0 <= i < |lines| ==> OneLine(lines[i])
    ensures var text := ReadUtf8(Utf8(Join(lines))); text.Some? && Split(text.value) == lines
  {
    var first, second := lines[0], lines[1];
    Utf8Reads(Join(lines));
    JoinSplits(lines);
    OneLineSplits(second);
    assert [first] + [second] + lines[2..] == lines;
  }

  /** With a network of one line, a token or vault message has eight lines, and no line feed ends it. */
  lemma EscrowMessageHasEightLines(sha: Bytes -> Digest, e: EscrowClaim)
    requires BuildEscrow(sha, e).Ok? && OneLine(e.network)
    ensures var text := ReadUtf8(BuildEscrow(sha, e).message); text.Some? && |Split(text.value)| == 8
  {
    EscrowLinesAreLines(sha, e);
    LabelledLine("network: ", e.network);
    OneLineEach(EscrowLines(sha, e));
  }

  /** And an ANT message has six. */
  lemma AntMessageHasSixLines(sha: Bytes -> Digest, a: AntClaim)
    requires BuildAnt(sha, a).Ok? && OneLine(a.network)
    ensures var text := ReadUtf8(BuildAnt(sha, a).message); text.Some? && |Split(text.value)| == 6
  {
    AntLinesAreLines(sha, a);
    LabelledLine("network: ", a.network);
    OneLineEach(AntLines(sha, a));
  }

  /** What a claim is refused for, in the order of the checks; everything else gets a message. */
  lemma RefusedExactly(sha: Bytes -> Digest, e: EscrowClaim, a: AntClaim)
    ensures BuildEscrow(sha, e).Ok? <==>
            |e.assetId| == 32 && |e.claimant| == 32 && |e.nonce| == 32 && 0 <= e.amount < 0x1_0000_0000_0000_0000 && |e.recipientKey| > 0
    ensures BuildAnt(sha, a).Ok? <==> |a.mint| == 32 && |a.claimant| == 32 && |a.nonce| == 32 && |a.recipientKey| > 0
    ensures BuildEscrow(sha, e).Err? ==>
              match BuildEscrow(sha, e).error
              case BadAssetId => |e.assetId| != 32
              case BadClaimant => |e.assetId| == 32 && |e.claimant| != 32
              case BadNonce => |e.assetId| == 32 && |e.claimant| == 32 && |e.nonce| != 32
              case BadAmount => |e.nonce| == 32 && (e.amount < 0 || e.amount >= 0x1_0000_0000_0000_0000)
              case NoRecipient => 0 <= e.amount < 0x1_0000_0000_0000_0000 && |e.recipientKey| == 0
              case BadMint => false
    ensures BuildAnt(sha, a).Err? ==>
              match BuildAnt(sha, a).error
              case BadMint => |a.mint| != 32
              case BadClaimant => |a.mint| == 32 && |a.claimant| != 32
              case BadNonce => |a.mint| == 32 && |a.claimant| == 32 && |a.nonce| != 32
              case NoRecipient => |a.nonce| == 32 && |a.recipientKey| == 0
              case _ => false
  {
  }

  // ---------------------------------------------------------------------------
  // What can be read back is bound
  // ---------------------------------------------------------------------------

  /** An accepted ANT message determines every field, for any network text, and the recipient's digest. */
  lemma AntMessageInjective(sha: Bytes -> Digest, a: AntClaim, b: AntClaim)
    requires BuildAnt(sha, a).Ok? && BuildAnt(sha, b) == BuildAnt(sha, a)
    ensures b.(recipientKey := a.recipientKey) == a && sha(b.recipientKey) == sha(a.recipientKey)
  {
    AntMessageReads(sha, a);
    AntMessageReads(sha, b);
  }

  /** An accepted token or vault message determines its kind and every field, and the recipient's digest. */
  lemma EscrowMessageInjective(sha: Bytes -> Digest, a: EscrowClaim, b: EscrowClaim)
    requires BuildEscrow(sha, a).Ok? && BuildEscrow(sha, b) == BuildEscrow(sha, a)
    ensures b.(recipientKey := a.recipientKey) == a && sha(b.recipientKey) == sha(a.recipientKey)
  {
    EscrowMessageReads(sha, a);
    EscrowMessageReads(sha, b);
    assert "vault"[0] == 'v' && "token"[0] == 't';
  }

  /** Two keys with one digest. */
  predicate Collision(sha: Bytes -> Digest, x: Bytes, y: Bytes) {
    x != y && sha(x) == sha(y)
  }

  /** The message determines the recipient's key as well, short of a digest collision. */
  lemma RecipientIsBound(sha: Bytes -> Digest, a: EscrowClaim, b: EscrowClaim)
    requires BuildEscrow(sha, a).Ok? && BuildEscrow(sha, b) == BuildEscrow(sha, a)
    ensures a == b || Collision(sha, a.recipientKey, b.recipientKey)
  {
    EscrowMessageInjective(sha, a, b);
  }

  /** The first line is there whatever the others are. */
  lemma HeaderReads(lines: seq<string>)
    requires |lines| >= 2 && OneLine(lines[0]) && forall i :: 2 <= i < |lines| ==> OneLine(lines[i])
    ensures var text := ReadUtf8(Utf8(Join(lines))); text.Some? && Split(text.value)[0] == lines[0]
  {
    Utf8Reads(Join(lines));
    JoinSplits(lines);
  }

  lemma AntHeaderReads(sha: Bytes -> Digest, a: AntClaim)
    requires BuildAnt(sha, a).Ok?
    ensures var text := ReadUtf8(BuildAnt(sha, a).message); text.Some? && Split(text.value)[0] == ANT_HEADER
  {
    AntLinesAreLines(sha, a);
    HeaderReads(AntLines(sha, a));
  }

  lemma EscrowHeaderReads(sha: Bytes -> Digest, e: EscrowClaim)
    requires BuildEscrow(sha, e).Ok?
    ensures var text := ReadUtf8(BuildEscrow(sha, e).message); text.Some? && Split(text.value)[0] == ESCROW_HEADER
  {
    EscrowLinesAreLines(sha, e);
    HeaderReads(EscrowLines(sha, e));
  }

  /** No byte string is both an ANT message and a token or vault message, whatever the networks say. */
  lemma KindsNeverCollide(sha: Bytes -> Digest, a: AntClaim, e: EscrowClaim)
    requires BuildAnt(sha, a).Ok? && BuildEscrow(sha, e).Ok?
    ensures BuildAnt(sha, a) != BuildEscrow(sha, e)
  {
    AntHeaderReads(sha, a);
    EscrowHeaderReads(sha, e);
    HeadersDiffer();
  }

  lemma HeadersDiffer()
    ensures ANT_HEADER != ESCROW_HEADER
  {
    assert ANT_HEADER[6] == 'a' && ESCROW_HEADER[6] == 'e';
  }
}

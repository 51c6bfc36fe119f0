/**
 * Document notarization on the Algorand ledger: the document hash, the note a zero-amount
 * self-payment carries, the demo fallback taken on any error, and the verifier.
 */
module Algorand {
  import opened Wrappers
  import Text
  import Hex
  import opened Json

  const DemoPrefix := "DEMO_"
  const NotarizationType := "LEGAL_DOCUMENT_NOTARIZATION"
  const Platform := "JusticeGPT"
  const VerifyUrlBase := "https://justicegpt.ai/verify/"
  /** `waitForConfirmation` gives up after this many rounds. */
  const ConfirmationRounds := 4
  /** The fallback block number is `Math.floor(Math.random() * 1000000)`. */
  const DemoBlockRange := 1000000

  /** A value of `Math.random()`. */
  type Random = r: real | 0.0 <= r < 1.0

  /** SHA-256 (section 6.2 of FIPS 180-4) over the UTF-8 bytes of a string, left uninterpreted. */
  type Sha256 = string -> Hex.Digest

  // ---------------------------------------------------------------------------------------
  // Hash step

  /** The JSON text that is hashed: trimmed content, metadata and the current time. */
  function HashInput(content: string, metadata: Fields, now: nat): string {
    Stringify(HashRecord(content, metadata, now))
  }

  function HashRecord(content: string, metadata: Fields, now: nat): Json {
    JObject([
      ("content", JString(Text.Trim(content))),
      ("metadata", JObject(metadata)),
      ("timestamp", JNumber(Text.NatToString(now)))])
  }

  /** `generateDocumentHash`: the lowercase hex SHA-256 of `HashInput`. */
  function GenerateDocumentHash(sha: Sha256, content: string, metadata: Fields, now: nat): string {
    Hex.ToHex(sha(HashInput(content, metadata, now)))
  }

  /** The hash is 64 lowercase hex characters. */
  lemma HashShape(sha: Sha256, content: string, metadata: Fields, now: nat)
    ensures |GenerateDocumentHash(sha, content, metadata, now)| == 64
    ensures forall i | 0 <= i < 64 :: Hex.IsLowerHexDigit(GenerateDocumentHash(sha, content, metadata, now)[i])
  {
    Hex.DigestHexShape(sha(HashInput(content, metadata, now)));
  }

  /** Leading and trailing whitespace in the content never changes the hash. */
  lemma HashIgnoresPadding(sha: Sha256, pre: string, content: string, post: string,
                           metadata: Fields, now: nat)
    requires Text.AllWhitespace(pre) && Text.AllWhitespace(post)
    ensures GenerateDocumentHash(sha, pre + content + post, metadata, now)
         == GenerateDocumentHash(sha, content, metadata, now)
  {
    Text.TrimIgnoresPadding(pre, content, post);
  }

  /**
   * The hashed text determines the trimmed content, the metadata and the time, so two hash
   * inputs collide only when those agree.
   */
  lemma HashInputInjective(c1: string, m1: Fields, t1: nat, c2: string, m2: Fields, t2: nat)
    requires Canonical(JObject(m1)) && Canonical(JObject(m2))
    requires HashInput(c1, m1, t1) == HashInput(c2, m2, t2)
    ensures Text.Trim(c1) == Text.Trim(c2) && m1 == m2 && t1 == t2
  {
    RecordCanonical(c1, m1, t1);
    RecordCanonical(c2, m2, t2);
    StringifyInjective(HashRecord(c1, m1, t1), HashRecord(c2, m2, t2));
    Text.NatToStringInjective(t1, t2);
  }

  lemma RecordCanonical(content: string, metadata: Fields, now: nat)
    requires Canonical(JObject(metadata))
    ensures Canonical(HashRecord(content, metadata, now))
  {
    NatLexeme(now);
    var r := HashRecord(content, metadata, now);
    assert forall i, j | 0 <= i < j < 3 :: r.fields[i].0 != r.fields[j].0;
  }

  // ---------------------------------------------------------------------------------------
  // Note builder

  /** `{...metadata, notarizedAt, platform: 'JusticeGPT'}`. */
  function NoteMetadata(metadata: Fields, notarizedAt: string): Fields {
    Put(Put(metadata, "notarizedAt", JString(notarizedAt)), "platform", JString(Platform))
  }

  function NoteRecord(documentHash: string, metadata: Fields, notarizedAt: string): Json {
    JObject([
      ("type", JString(NotarizationType)),
      ("documentHash", JString(documentHash)),
      ("metadata", JObject(NoteMetadata(metadata, notarizedAt)))])
  }

  /** The note text: the JSON the transaction carries (its UTF-8 bytes, decoded back). */
  function NoteText(documentHash: string, metadata: Fields, notarizedAt: string): string {
    Stringify(NoteRecord(documentHash, metadata, notarizedAt))
  }

  /**
   * In the note's metadata the injected `platform` and `notarizedAt` replace any caller keys
   * of those names, and every other caller key keeps its value.
   */
  lemma NoteMetadataOverrides(metadata: Fields, notarizedAt: string, k: string)
    ensures Get(NoteMetadata(metadata, notarizedAt), "platform") == Some(JString(Platform))
    ensures Get(NoteMetadata(metadata, notarizedAt), "notarizedAt") == Some(JString(notarizedAt))
    ensures k != "platform" && k != "notarizedAt" ==>
      Get(NoteMetadata(metadata, notarizedAt), k) == Get(metadata, k)
  {
    var m1 := Put(metadata, "notarizedAt", JString(notarizedAt));
    GetPut(m1, "platform", JString(Platform), "platform");
    GetPut(m1, "platform", JString(Platform), "notarizedAt");
    GetPut(metadata, "notarizedAt", JString(notarizedAt), "notarizedAt");
    GetPut(m1, "platform", JString(Platform), k);
    GetPut(metadata, "notarizedAt", JString(notarizedAt), k);
  }

  lemma NoteCanonical(documentHash: string, metadata: Fields, notarizedAt: string)
    requires Canonical(JObject(metadata))
    ensures Canonical(NoteRecord(documentHash, metadata, notarizedAt))
  {
    var m1 := Put(metadata, "notarizedAt", JString(notarizedAt));
    PutKeepsDistinct(metadata, "notarizedAt", JString(notarizedAt));
    PutKeepsDistinct(m1, "platform", JString(Platform));
    PutCanonical(metadata, "notarizedAt", JString(notarizedAt));
    PutCanonical(m1, "platform", JString(Platform));
    var r := NoteRecord(documentHash, metadata, notarizedAt);
    assert forall i, j | 0 <= i < j < 3 :: r.fields[i].0 != r.fields[j].0;
  }

  lemma {:induction false} PutCanonical(fields: Fields, k: string, v: Json)
    requires forall i | 0 <= i < |fields| :: Canonical(fields[i].1)
    requires Canonical(v)
    ensures forall i | 0 <= i < |Put(fields, k, v)| :: Canonical(Put(fields, k, v)[i].1)
  {
    if fields != [] && fields[0].0 != k {
      PutCanonical(fields[1..], k, v);
    }
  }

  /** The ledger's view of the note: it parses back to exactly the record that was written. */
  lemma NoteParses(documentHash: string, metadata: Fields, notarizedAt: string)
    requires Canonical(JObject(metadata))
    ensures Parse(NoteText(documentHash, metadata, notarizedAt))
         == Some(NoteRecord(documentHash, metadata, notarizedAt))
  {
    NoteCanonical(documentHash, metadata, notarizedAt);
    ParseStringify(NoteRecord(documentHash, metadata, notarizedAt));
  }

  // ---------------------------------------------------------------------------------------
  // The ledger

  /** A payment transaction: `note` is absent when the transaction carries none. */
  datatype Transaction = Transaction(sender: string, receiver: string, amount: nat, note: Option<string>)

  /** What the indexer reports for a confirmed transaction. */
  datatype LedgerEntry = LedgerEntry(txn: Transaction, confirmedRound: nat, roundTime: nat)

  /** The confirmed transactions of the ledger, by transaction id. */
  class Ledger {
    var transactions: map<string, LedgerEntry>

    constructor(initial: map<string, LedgerEntry>)
      ensures transactions == initial
    {
      transactions := initial;
    }
  }

  /** The characters of an Algorand transaction id: the base32 alphabet. */
  predicate IsBase32(c: char) {
    'A' <= c <= 'Z' || '2' <= c <= '7'
  }

  /** A transaction id as the node reports it: 52 base32 characters. */
  predicate IsTxId(s: string) {
    |s| == 52 && forall i | 0 <= i < |s| :: IsBase32(s[i])
  }

  lemma TxIdNotDemo(s: string)
    requires IsTxId(s)
    ensures !Text.StartsWith(s, DemoPrefix)
  {
    assert !IsBase32(DemoPrefix[4]) && IsBase32(s[4]);
    assert s[..|DemoPrefix|][4] == s[4];
  }

  /**
   * How the node calls of one notarization turn out: the node is unreachable or refuses the
   * transaction (any of the SDK calls throws), the transaction is not confirmed within
   * `ConfirmationRounds`, or it is confirmed in a round at a time.
   */
  datatype Network =
    | Unreachable
    | Rejected
    | Unconfirmed(pendingId: string)
    | Confirmed(txId: string, confirmedRound: nat, roundTime: nat)

  /** The separate readings of the clock and of `Math.random()` that one notarization takes. */
  datatype Clock = Clock(
    hashTime: nat,          // Date.now() inside the first generateDocumentHash
    notarizedAt: string,    // new Date().toISOString()
    doneTime: nat,          // Date.now() once confirmed
    fallbackHashTime: nat,  // Date.now() inside the fallback's generateDocumentHash
    demoTime: nat,          // Date.now() in the DEMO_ id
    random: Random,         // Math.random() for the fallback block number
    fallbackDoneTime: nat)  // Date.now() in the fallback result

  datatype NotarizationResult = NotarizationResult(
    success: bool,
    transactionId: Option<string>,
    blockNumber: Option<nat>,
    documentHash: string,
    timestamp: nat,
    error: Option<string>)

  function DemoBlock(r: Random): (b: nat)
    ensures b < DemoBlockRange
  {
    (r * DemoBlockRange as real).Floor
  }

  /** The "successful" record the catch branch returns. */
  function DemoResult(sha: Sha256, content: string, metadata: Fields, clock: Clock): (r: NotarizationResult)
    ensures r.success && r.error.None?
    ensures r.transactionId.Some? && Text.StartsWith(r.transactionId.value, DemoPrefix)
    ensures r.blockNumber.Some? && r.blockNumber.value < DemoBlockRange
    ensures r.documentHash == GenerateDocumentHash(sha, content, metadata, clock.fallbackHashTime)
  {
    var id := DemoPrefix + Text.NatToString(clock.demoTime);
    Text.StartsWithAppend(DemoPrefix, Text.NatToString(clock.demoTime));
    NotarizationResult(true, Some(id), Some(DemoBlock(clock.random)),
      GenerateDocumentHash(sha, content, metadata, clock.fallbackHashTime), clock.fallbackDoneTime, None)
  }

  /** The zero-amount self-payment that carries the note. */
  function NotarizationTxn(userAddress: string, note: string): Transaction {
    Transaction(userAddress, userAddress, 0, Some(note))
  }

  /**
   * What `notarizeDocument` returns: the confirmed id and round and the hash of the note, or,
   * on any error, the demo record. `success` is never false.
   */
  function NotarizationOutcome(sha: Sha256, content: string, metadata: Fields, net: Network, clock: Clock)
    : (r: NotarizationResult)
    ensures r.success && r.error.None? && r.transactionId.Some? && r.blockNumber.Some?
    ensures net.Confirmed? ==>
      && r.transactionId == Some(net.txId) && r.blockNumber == Some(net.confirmedRound)
      && r.documentHash == GenerateDocumentHash(sha, content, metadata, clock.hashTime)
      && r.timestamp == clock.doneTime
    ensures !net.Confirmed? ==>
      && Text.StartsWith(r.transactionId.value, DemoPrefix)
      && r.blockNumber.value < DemoBlockRange
      && r.documentHash == GenerateDocumentHash(sha, content, metadata, clock.fallbackHashTime)
  {
    if net.Confirmed? then
      NotarizationResult(true, Some(net.txId), Some(net.confirmedRound),
        GenerateDocumentHash(sha, content, metadata, clock.hashTime), clock.doneTime, None)
    else DemoResult(sha, content, metadata, clock)
  }

  /**
   * `notarizeDocument`. On confirmation the ledger gains the self-payment, carrying the note,
   * under the reported id; on any error the ledger is unchanged.
   */
  method NotarizeDocument(ledger: Ledger, sha: Sha256, content: string, metadata: Fields,
                          userAddress: string, net: Network, clock: Clock)
    returns (r: NotarizationResult)
    modifies ledger
    ensures r == NotarizationOutcome(sha, content, metadata, net, clock)
    ensures net.Confirmed? ==>
      var txn := NotarizationTxn(userAddress, NoteText(r.documentHash, metadata, clock.notarizedAt));
      ledger.transactions
        == old(ledger.transactions)[net.txId := LedgerEntry(txn, net.confirmedRound, net.roundTime)]
    ensures net.Confirmed? ==>
      var txn := ledger.transactions[net.txId].txn;
      txn.sender == userAddress && txn.receiver == userAddress && txn.amount == 0
    ensures !net.Confirmed? ==> ledger.transactions == old(ledger.transactions)
  {
    var documentHash := GenerateDocumentHash(sha, content, metadata, clock.hashTime);
    var note := NoteText(documentHash, metadata, clock.notarizedAt);
    var txn := NotarizationTxn(userAddress, note);
    if net.Confirmed? {
      ledger.transactions := ledger.transactions[net.txId := LedgerEntry(txn, net.confirmedRound, net.roundTime)];
      r := NotarizationResult(true, Some(net.txId), Some(net.confirmedRound), documentHash, clock.doneTime, None);
    } else {
      r := DemoResult(sha, content, metadata, clock);
    }
  }

  // ---------------------------------------------------------------------------------------
  // Verifier

  datatype Details =
    | DemoDetails(demoId: string, demoBlock: nat, demoTime: nat, expected: string, platform: string)
    | LedgerDetails(transactionId: string, blockNumber: nat, timestamp: nat,
                    observedHash: Option<Json>, metadata: Option<Json>)

  datatype VerificationResult = VerificationResult(verified: bool, details: Option<Details>, error: Option<string>)

  function Failed(message: string): VerificationResult {
    VerificationResult(false, None, Some(message))
  }

  /** Property access `value.k`: throws on `null`; anything but an object has no such property. */
  function Member(value: Json, k: string): Result<Option<Json>, string> {
    match value
    case JNull => Failure("Cannot read properties of null")
    case JObject(fields) => Success(Get(fields, k))
    case _ => Success(None)
  }

  /** What the verifier concludes from a note: `documentHash` compared by string equality. */
  function CheckNote(noteText: string, txId: string, entry: LedgerEntry, expectedHash: string): VerificationResult {
    match Parse(noteText)
    case None => Failed("Verification failed")
    case Some(data) =>
      match Member(data, "documentHash")
      case Failure(_) => Failed("Verification failed")
      case Success(observed) =>
        VerificationResult(observed == Some(JString(expectedHash)),
          Some(LedgerDetails(txId, entry.confirmedRound, entry.roundTime, observed, Member(data, "metadata").value)),
          None)
  }

  /**
   * `verifyDocumentNotarization`: a `DEMO_` id is accepted without a lookup; otherwise the
   * indexer is asked for the transaction (`indexerUp` false when that call throws).
   */
  function Verification(transactions: map<string, LedgerEntry>, txId: string, expectedHash: string,
                        indexerUp: bool, random: Random, now: nat): VerificationResult
  {
    if Text.StartsWith(txId, DemoPrefix) then
      VerificationResult(true, Some(DemoDetails(txId, DemoBlock(random), now, expectedHash, Platform)), None)
    else if !indexerUp then Failed("Verification failed")
    else if txId !in transactions then Failed("Transaction not found")
    else if transactions[txId].txn.note.None? then Failed("No notarization data found")
    else CheckNote(transactions[txId].txn.note.value, txId, transactions[txId], expectedHash)
  }

  method VerifyDocumentNotarization(ledger: Ledger, txId: string, expectedHash: string,
                                    indexerUp: bool, random: Random, now: nat)
    returns (v: VerificationResult)
    ensures v == Verification(ledger.transactions, txId, expectedHash, indexerUp, random, now)
  {
    if Text.StartsWith(txId, DemoPrefix) {
      return VerificationResult(true, Some(DemoDetails(txId, DemoBlock(random), now, expectedHash, Platform)), None);
    }
    if !indexerUp {
      return Failed("Verification failed");
    }
    if txId !in ledger.transactions {
      return Failed("Transaction not found");
    }
    var entry := ledger.transactions[txId];
    if entry.txn.note.None? {
      return Failed("No notarization data found");
    }
    v := CheckNote(entry.txn.note.value, txId, entry, expectedHash);
  }

  /** A `DEMO_` id verifies against any expected hash, whatever the ledger holds. */
  lemma DemoAlwaysVerifies(t1: map<string, LedgerEntry>, t2: map<string, LedgerEntry>, txId: string,
                           expectedHash: string, up1: bool, up2: bool, random: Random, now: nat)
    requires Text.StartsWith(txId, DemoPrefix)
    ensures Verification(t1, txId, expectedHash, up1, random, now).verified
    ensures Verification(t1, txId, expectedHash, up1, random, now)
         == Verification(t2, txId, expectedHash, up2, random, now)
    ensures Verification(t1, txId, expectedHash, up1, random, now).details.value.expected == expectedHash
  {
  }

  /** The error cases: the verdict is false and carries the matching message. */
  lemma VerificationErrors(transactions: map<string, LedgerEntry>, txId: string, expectedHash: string,
                           random: Random, now: nat)
    requires !Text.StartsWith(txId, DemoPrefix)
    ensures Verification(transactions, txId, expectedHash, false, random, now) == Failed("Verification failed")
    ensures txId !in transactions ==>
      Verification(transactions, txId, expectedHash, true, random, now) == Failed("Transaction not found")
    ensures txId in transactions && transactions[txId].txn.note.None? ==>
      Verification(transactions, txId, expectedHash, true, random, now) == Failed("No notarization data found")
    ensures txId in transactions && transactions[txId].txn.note.Some? ==>
      var data := Parse(transactions[txId].txn.note.value);
      data in {None, Some(JNull)} ==>
        Verification(transactions, txId, expectedHash, true, random, now) == Failed("Verification failed")
  {
  }

  /** A non-demo verdict is true only when the note's `documentHash` is the expected string. */
  lemma VerifiedMeansMatch(transactions: map<string, LedgerEntry>, txId: string, expectedHash: string,
                           random: Random, now: nat)
    requires !Text.StartsWith(txId, DemoPrefix)
    requires Verification(transactions, txId, expectedHash, true, random, now).verified
    ensures txId in transactions && transactions[txId].txn.note.Some?
    ensures exists fields :: Parse(transactions[txId].txn.note.value) == Some(JObject(fields))
                         && Get(fields, "documentHash") == Some(JString(expectedHash))
  {
    var data := Parse(transactions[txId].txn.note.value).value;
    assert data.JObject?;
  }

  /**
   * The round trip: once `NotarizeDocument` reports a confirmed id, verifying that id against
   * a hash succeeds exactly when the hash is the one notarized, and shows that hash and the
   * note's metadata.
   */
  lemma NotarizeVerifyRoundTrip(old_transactions: map<string, LedgerEntry>, sha: Sha256,
                                content: string, metadata: Fields, userAddress: string,
                                txId: string, round: nat, roundTime: nat, clock: Clock,
                                expectedHash: string, random: Random, now: nat)
    requires IsTxId(txId) && Canonical(JObject(metadata))
    ensures
      var hash := GenerateDocumentHash(sha, content, metadata, clock.hashTime);
      var note := NoteText(hash, metadata, clock.notarizedAt);
      var t := old_transactions[txId := LedgerEntry(NotarizationTxn(userAddress, note), round, roundTime)];
      var v := Verification(t, txId, expectedHash, true, random, now);
      && (v.verified <==> expectedHash == hash)
      && v.details == Some(LedgerDetails(txId, round, roundTime, Some(JString(hash)),
                                         Some(JObject(NoteMetadata(metadata, clock.notarizedAt)))))
  {
    var hash := GenerateDocumentHash(sha, content, metadata, clock.hashTime);
    TxIdNotDemo(txId);
    NoteParses(hash, metadata, clock.notarizedAt);
    var fields := NoteRecord(hash, metadata, clock.notarizedAt).fields;
    NoteCanonical(hash, metadata, clock.notarizedAt);
    GetAt(fields, 1);
    GetAt(fields, 2);
  }

  /**
   * The verifier never looks at the `type` member: two notes that differ only in it give the
   * same verdict and details.
   */
  lemma TypeTagIgnored(transactions: map<string, LedgerEntry>, txId: string, entry: LedgerEntry,
                       fields: Fields, tag1: Json, tag2: Json, expectedHash: string,
                       indexerUp: bool, random: Random, now: nat)
    requires Canonical(JObject(fields)) && Canonical(tag1) && Canonical(tag2)
    ensures
      var n1 := Stringify(JObject(Put(fields, "type", tag1)));
      var n2 := Stringify(JObject(Put(fields, "type", tag2)));
      var e1 := LedgerEntry(entry.txn.(note := Some(n1)), entry.confirmedRound, entry.roundTime);
      var e2 := LedgerEntry(entry.txn.(note := Some(n2)), entry.confirmedRound, entry.roundTime);
      Verification(transactions[txId := e1], txId, expectedHash, indexerUp, random, now)
        == Verification(transactions[txId := e2], txId, expectedHash, indexerUp, random, now)
  {
    PutKeepsDistinct(fields, "type", tag1);
    PutKeepsDistinct(fields, "type", tag2);
    PutCanonical(fields, "type", tag1);
    PutCanonical(fields, "type", tag2);
    ParseStringify(JObject(Put(fields, "type", tag1)));
    ParseStringify(JObject(Put(fields, "type", tag2)));
    GetPut(fields, "type", tag1, "documentHash");
    GetPut(fields, "type", tag2, "documentHash");
    GetPut(fields, "type", tag1, "metadata");
    GetPut(fields, "type", tag2, "metadata");
  }

  // ---------------------------------------------------------------------------------------
  // Verification QR

  function QrRecord(transactionId: string, documentHash: string): Json {
    JObject([
      ("platform", JString(Platform)),
      ("transactionId", JString(transactionId)),
      ("documentHash", JString(documentHash)),
      ("verifyUrl", JString(VerifyUrlBase + transactionId))])
  }

  /** `generateVerificationQR`: the JSON payload of the verification QR code. */
  function GenerateVerificationQR(transactionId: string, documentHash: string): string {
    Stringify(QrRecord(transactionId, documentHash))
  }

  /** The QR payload parses back to the id, the hash and the verification URL of that id. */
  lemma QrRoundTrip(transactionId: string, documentHash: string)
    ensures
      var parsed := Parse(GenerateVerificationQR(transactionId, documentHash));
      && parsed.Some? && parsed.value.JObject?
      && Get(parsed.value.fields, "transactionId") == Some(JString(transactionId))
      && Get(parsed.value.fields, "documentHash") == Some(JString(documentHash))
      && Get(parsed.value.fields, "verifyUrl") == Some(JString(VerifyUrlBase + transactionId))
      && Get(parsed.value.fields, "platform") == Some(JString(Platform))
  {
    var r := QrRecord(transactionId, documentHash);
    assert forall i, j | 0 <= i < j < 4 :: r.fields[i].0 != r.fields[j].0;
    ParseStringify(r);
    GetAt(r.fields, 0);
    GetAt(r.fields, 1);
    GetAt(r.fields, 2);
    GetAt(r.fields, 3);
  }

  /** Different ids or hashes never give the same QR payload. */
  lemma QrInjective(id1: string, h1: string, id2: string, h2: string)
    requires GenerateVerificationQR(id1, h1) == GenerateVerificationQR(id2, h2)
    ensures id1 == id2 && h1 == h2
  {
    QrRoundTrip(id1, h1);
    QrRoundTrip(id2, h2);
  }
}

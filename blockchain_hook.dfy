/**
 * The blockchain hook: it merges the user's identity into the metadata, notarizes, turns the
 * result into a `NotarizedDocument` record and passes verification through, raising its
 * `isNotarizing` and `isVerifying` flags while it works.
 */
module BlockchainHook {
  import opened Wrappers
  import Text
  import Hex
  import opened Json
  import opened Algorand
  import Auth

  const NoUserError := "User must be logged in to notarize documents"
  const NotarizationFailed := "Notarization failed"

  datatype NotarizedDocument = NotarizedDocument(
    id: string,
    name: string,
    hash: string,
    transactionId: string,
    blockNumber: nat,
    timestamp: nat,
    verified: bool,
    qrCode: string)

  /** `{...metadata, documentName, userId, userEmail, platform: 'JusticeGPT', jurisdiction}`. */
  function MergeMetadata(metadata: Fields, documentName: string, user: Auth.User): Fields {
    var m1 := Put(metadata, "documentName", JString(documentName));
    var m2 := Put(m1, "userId", JString(user.id));
    var m3 := Put(m2, "userEmail", JString(user.email));
    var m4 := Put(m3, "platform", JString(Platform));
    Put(m4, "jurisdiction", JString(user.jurisdiction))
  }

  predicate Injected(k: string) {
    k in {"documentName", "userId", "userEmail", "platform", "jurisdiction"}
  }

  /** The identity keys override the caller's keys of the same name; other keys are kept. */
  lemma MergeOverrides(metadata: Fields, documentName: string, user: Auth.User, k: string)
    ensures var m := MergeMetadata(metadata, documentName, user);
      && Get(m, "documentName") == Some(JString(documentName))
      && Get(m, "userId") == Some(JString(user.id))
      && Get(m, "userEmail") == Some(JString(user.email))
      && Get(m, "platform") == Some(JString(Platform))
      && Get(m, "jurisdiction") == Some(JString(user.jurisdiction))
      && (!Injected(k) ==> Get(m, k) == Get(metadata, k))
  {
    MergedValue(metadata, documentName, user, "documentName");
    MergedValue(metadata, documentName, user, "userId");
    MergedValue(metadata, documentName, user, "userEmail");
    MergedValue(metadata, documentName, user, "platform");
    MergedValue(metadata, documentName, user, "jurisdiction");
    MergedValue(metadata, documentName, user, k);
  }

  lemma MergedValue(metadata: Fields, documentName: string, user: Auth.User, k: string)
    ensures Get(MergeMetadata(metadata, documentName, user), k) ==
      if k == "jurisdiction" then Some(JString(user.jurisdiction))
      else if k == "platform" then Some(JString(Platform))
      else if k == "userEmail" then Some(JString(user.email))
      else if k == "userId" then Some(JString(user.id))
      else if k == "documentName" then Some(JString(documentName))
      else Get(metadata, k)
  {
    var m1 := Put(metadata, "documentName", JString(documentName));
    var m2 := Put(m1, "userId", JString(user.id));
    var m3 := Put(m2, "userEmail", JString(user.email));
    var m4 := Put(m3, "platform", JString(Platform));
    GetPut(metadata, "documentName", JString(documentName), k);
    GetPut(m1, "userId", JString(user.id), k);
    GetPut(m2, "userEmail", JString(user.email), k);
    GetPut(m3, "platform", JString(Platform), k);
    GetPut(m4, "jurisdiction", JString(user.jurisdiction), k);
  }

  /** Merging keeps a well-formed metadata object well formed. */
  lemma MergeCanonical(metadata: Fields, documentName: string, user: Auth.User)
    requires Canonical(JObject(metadata))
    ensures Canonical(JObject(MergeMetadata(metadata, documentName, user)))
  {
    var m1 := Put(metadata, "documentName", JString(documentName));
    var m2 := Put(m1, "userId", JString(user.id));
    var m3 := Put(m2, "userEmail", JString(user.email));
    var m4 := Put(m3, "platform", JString(Platform));
    PutKeepsDistinct(metadata, "documentName", JString(documentName));
    PutKeepsDistinct(m1, "userId", JString(user.id));
    PutKeepsDistinct(m2, "userEmail", JString(user.email));
    PutKeepsDistinct(m3, "platform", JString(Platform));
    PutKeepsDistinct(m4, "jurisdiction", JString(user.jurisdiction));
    PutCanonical(metadata, "documentName", JString(documentName));
    PutCanonical(m1, "userId", JString(user.id));
    PutCanonical(m2, "userEmail", JString(user.email));
    PutCanonical(m3, "platform", JString(Platform));
    PutCanonical(m4, "jurisdiction", JString(user.jurisdiction));
  }

  /**
   * The round trip through the hook: when the ledger confirms, the record's transaction id
   * verifies against a hash exactly when that hash is the record's, and the details show the
   * merged metadata with the notarization stamp.
   */
  lemma RecordVerifies(old_transactions: map<string, LedgerEntry>, sha: Sha256, content: string,
                       documentName: string, metadata: Fields, user: Auth.User, account: string,
                       net: Network, clock: Clock, expectedHash: string, random: Random, now: nat)
    requires net.Confirmed? && IsTxId(net.txId) && Canonical(JObject(metadata))
    ensures
      var merged := MergeMetadata(metadata, documentName, user);
      var r := NotarizationOutcome(sha, content, merged, net, clock);
      var note := NoteText(r.documentHash, merged, clock.notarizedAt);
      var t := old_transactions[net.txId := LedgerEntry(NotarizationTxn(account, note), net.confirmedRound, net.roundTime)];
      var v := Verification(t, r.transactionId.value, expectedHash, true, random, now);
      && (v.verified <==> expectedHash == r.documentHash)
      && v.details == Some(LedgerDetails(net.txId, net.confirmedRound, net.roundTime,
           Some(JString(r.documentHash)), Some(JObject(NoteMetadata(merged, clock.notarizedAt)))))
  {
    MergeCanonical(metadata, documentName, user);
    var merged := MergeMetadata(metadata, documentName, user);
    NotarizeVerifyRoundTrip(old_transactions, sha, content, merged, account, net.txId,
      net.confirmedRound, net.roundTime, clock, expectedHash, random, now);
  }

  /** `generateHash`: the hook hands the content and metadata straight to `generateDocumentHash`. */
  function GenerateHash(sha: Sha256, content: string, metadata: Fields, now: nat): (h: string)
    ensures |h| == 64 && forall i | 0 <= i < 64 :: Hex.IsLowerHexDigit(h[i])
  {
    HashShape(sha, content, metadata, now);
    GenerateDocumentHash(sha, content, metadata, now)
  }

  class Hook {
    var isNotarizing: bool
    var isVerifying: bool

    constructor()
      ensures !isNotarizing && !isVerifying
    {
      isNotarizing := false;
      isVerifying := false;
    }

    /**
     * `notarize`. Without a logged-in user it fails before anything happens. Otherwise it
     * notarizes with a fresh account's address and the merged metadata; the record copies the
     * result, is marked verified, and carries the verification QR payload.
     */
    method Notarize(ledger: Ledger, sha: Sha256, user: Option<Auth.User>, content: string,
                    documentName: string, metadata: Fields, account: string,
                    net: Network, clock: Clock, idTime: nat)
      returns (r: Result<NotarizedDocument, string>)
      modifies this, ledger
      ensures isVerifying == old(isVerifying)
      ensures user.None? ==>
        r == Failure(NoUserError) && isNotarizing == old(isNotarizing)
        && ledger.transactions == old(ledger.transactions)
      ensures user.Some? ==>
        var merged := MergeMetadata(metadata, documentName, user.value);
        var res := NotarizationOutcome(sha, content, merged, net, clock);
        && !isNotarizing
        && r.Success?
        && r.value.id == user.value.id + "_" + Text.NatToString(idTime)
        && r.value.name == documentName
        && r.value.hash == res.documentHash
        && Some(r.value.transactionId) == res.transactionId
        && Some(r.value.blockNumber) == res.blockNumber
        && r.value.timestamp == res.timestamp
        && r.value.verified
        && r.value.qrCode == GenerateVerificationQR(r.value.transactionId, r.value.hash)
      ensures user.Some? && net.Confirmed? ==>
        var merged := MergeMetadata(metadata, documentName, user.value);
        var note := NoteText(r.value.hash, merged, clock.notarizedAt);
        ledger.transactions == old(ledger.transactions)[
          net.txId := LedgerEntry(NotarizationTxn(account, note), net.confirmedRound, net.roundTime)]
      ensures user.Some? && !net.Confirmed? ==> ledger.transactions == old(ledger.transactions)
    {
      if user.None? {
        return Failure(NoUserError);
      }
      isNotarizing := true;
      var u := user.value;
      var merged := MergeMetadata(metadata, documentName, u);
      var res := NotarizeDocument(ledger, sha, content, merged, account, net, clock);
      if !res.success {
        r := Failure(res.error.GetOr(NotarizationFailed));
      } else {
        var qr := GenerateVerificationQR(res.transactionId.value, res.documentHash);
        r := Success(NotarizedDocument(u.id + "_" + Text.NatToString(idTime), documentName,
          res.documentHash, res.transactionId.value, res.blockNumber.value, res.timestamp, true, qr));
      }
      isNotarizing := false;
    }

    /** `verify`: the verifier's result, unchanged. */
    method Verify(ledger: Ledger, txId: string, expectedHash: string, indexerUp: bool,
                  random: Random, now: nat)
      returns (v: VerificationResult)
      modifies this
      ensures v == Verification(ledger.transactions, txId, expectedHash, indexerUp, random, now)
      ensures !isVerifying && isNotarizing == old(isNotarizing)
    {
      isVerifying := true;
      v := VerifyDocumentNotarization(ledger, txId, expectedHash, indexerUp, random, now);
      isVerifying := false;
    }
  }
}

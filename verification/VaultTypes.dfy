/** The enclave's ledger state (enclave/src/state.rs) and write-ahead log entries (enclave/src/wal.rs). */
module VaultTypes {
  import opened Prelude
  import opened AdaptorSig
  import opened Keystream

  datatype Error =
    | ClientNotFound | InsufficientBalance | ReservationNotFound | ProviderNotFound | ProviderAlreadyRegistered
    | InvalidReservationStatus | ReservationExpired | PaymentIdReused
    | ChannelNotFound | InvalidChannelStatus | ChannelRequestIdReused | ChannelRequestExpired
    | InvalidAdaptorSignature | ResultHashMismatch | WithdrawMismatch | ReplayMismatch | LegacyEntry | WalAppendFailed

  datatype Balance = Balance(free: nat, locked: nat, maxLock: Time, deposited: nat, withdrawn: nat)

  const EmptyBalance := Balance(0, 0, 0, 0, 0)

  datatype ReservationStatus = Reserved | SettledOffchain | Cancelled | Expired | BatchedOnchain

  datatype Reservation = Reservation(
    verificationId: Id, reservationId: Id, paymentId: Id, client: Pubkey, provider: Id, amount: nat,
    requestHash: Bytes, detailsHash: Bytes, status: ReservationStatus, createdAt: Time, expiresAt: Time,
    settlementId: Option<Id>, settledAt: Option<Time>)

  datatype Provider = Provider(providerId: Id, account: Pubkey, participant: Option<Bytes>)

  datatype Credit = Credit(provider: Id, account: Pubkey, amount: nat, oldestAt: Time, ids: seq<Id>)

  datatype Settlement = Settlement(settlementId: Id, client: Pubkey, account: Pubkey, amount: nat, timestamp: Time)

  datatype BatchInfo = BatchInfo(batchId: nat, signature: Id)

  datatype Withdrawal = Withdrawal(
    client: Pubkey, recipient: Pubkey, amount: nat, nonce: nat, issuedAt: Time, expiresAt: Time)

  datatype ChannelStatus = Open | Locked | Pending

  datatype Request = Request(
    requestId: Id, amount: nat, requestHash: Bytes,
    providerKey: Option<Bytes>, adaptorPoint: Option<Bytes>, preSig: Option<PreSignature>,
    ciphertext: Option<Bytes>, resultHash: Option<Bytes>,
    createdAt: Time, expiresAt: Time)

  datatype Channel = Channel(
    channelId: Id, client: Pubkey, provider: Id, free: nat, locked: nat, earned: nat,
    status: ChannelStatus, nonce: nat, createdAt: Time, updatedAt: Time,
    usedIds: set<Id>, request: Option<Request>)

  /** What a provider delivers for a locked request. */
  datatype Delivery = Delivery(
    adaptorPoint: Bytes, preSig: PreSignature, ciphertext: Bytes, resultHash: Bytes, providerKey: Bytes)

  /** The vault's maps and counters, with the deposit detector's progress. */
  datatype Vault = Vault(
    clients: map<Pubkey, Balance>,
    reservations: map<Id, Reservation>,
    payments: map<Id, Id>,
    credits: map<Id, Credit>,
    providers: map<Id, Provider>,
    history: map<Id, Settlement>,
    batches: map<Id, BatchInfo>,
    withdrawals: map<nat, Withdrawal>,
    channels: map<Id, Channel>,
    receiptNonce: nat,
    withdrawNonce: nat,
    processed: set<Id>,
    lastSignature: Option<Id>,
    lastSlot: nat)

  const EmptyVault := Vault(map[], map[], map[], map[], map[], map[], map[], map[], map[], 1, 1, {}, None, 0)

  /** Curve, cipher and hash used by the channels; `message` is the payment message of a request. */
  datatype Crypto = Crypto(
    curve: Curve, stream: Stream, hash: Bytes -> Bytes, message: (Id, Id, nat, Bytes) -> Bytes)

  datatype ReservationDetail = ReservationDetail(
    reservationId: Id, requestHash: Bytes, detailsHash: Bytes, createdAt: Time, expiresAt: Time)

  /** A decoded log entry. An absent option is a field that an older writer did not record. */
  datatype Entry =
    | DepositApplied(client: Pubkey, amount: nat, slot: nat, signature: Id)
    | WithdrawAuthorized(withdrawal: Withdrawal)
    | WithdrawApplied(client: Pubkey, recipient: Pubkey, amount: nat, nonce: nat, expiresAt: Time, slot: nat, signature: Id)
    | WithdrawExpired(client: Pubkey, nonce: nat)
    | ReservationCreated(verificationId: Id, paymentId: Id, client: Pubkey, provider: Id, amount: nat,
                         detail: Option<ReservationDetail>)
    | ReservationCancelled(verificationId: Id)
    | ReservationExpiredEntry(verificationId: Id)
    | SettlementCommitted(settlementId: Id, verificationId: Id, provider: Id, amount: nat, settledAt: Option<Time>)
    | ReceiptIssued(nonce: nat)
    | ReceiptMirrored(nonce: nat)
    | ProviderRegistered(registration: Provider)
    | BatchSubmitted(batchId: nat)
    | BatchConfirmed(batchId: nat, signature: Id, settlementIds: seq<Id>)
    | ChannelOpened(channelId: Id, client: Pubkey, provider: Id, deposit: nat)
    | RequestSubmitted(channelId: Id, requestId: Id, amount: nat, requestHash: Option<Bytes>)
    | RequestExpired(channelId: Id, requestId: Id, amount: nat)
    | AdaptorDelivered(channelId: Id, requestId: Id, delivery: Option<Delivery>)
    | ChannelFinalized(channelId: Id, requestId: Id, amount: nat)
    | ChannelClosed(channelId: Id, returned: nat, earned: nat, closeId: Option<Id>)

  /** The state a step leaves behind and the error it reports; some steps change state before failing. */
  datatype Effect = Effect(v: Vault, err: Option<Error>)
}

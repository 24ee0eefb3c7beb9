/** The wallet context: the connection state shared by the pages, the browser
    storage entry that remembers the account, and the shortened account id the
    connect button shows. The wallet extension's reply and the random numbers the
    demo mode draws are parameters. */
module Wallet {
  import opened Outcomes
  import opened Numerals

  // ---------------------------------------------------------------------------
  // Account id display
  // ---------------------------------------------------------------------------

  /** Ids longer than 12 characters show their first 6 and last 4 characters around
      an ellipsis; shorter ids are shown whole. */
  function FormatAccountId(id: string): (shown: string)
    ensures |id| <= 12 ==> shown == id
    ensures |id| > 12 ==> |shown| == 13 && shown[..6] == id[..6] && shown[6..9] == "..."
                          && shown[9..] == id[|id| - 4..]
  {
    if |id| > 12 then id[..6] + "..." + id[|id| - 4..] else id
  }

  /** The shortened id is never longer than the id, and shortening twice changes
      nothing more. */
  lemma FormatAccountIdShortensOnce(id: string)
    ensures |FormatAccountId(id)| <= |id|
    ensures |FormatAccountId(id)| <= 13
    ensures FormatAccountId(FormatAccountId(id)) == FormatAccountId(id)
  {
    var shown := FormatAccountId(id);
    if |id| > 12 {
      assert shown[..6] == id[..6];
      assert shown[|shown| - 4..] == id[|id| - 4..];
      assert shown[..6] + "..." + shown[|shown| - 4..] == shown;
    }
  }

  // ---------------------------------------------------------------------------
  // Connection state
  // ---------------------------------------------------------------------------

  /** The provider's state; the network is always the test network and is not
      modelled. */
  datatype WalletState = WalletState(isConnected: bool, accountId: Option<string>, balance: real)

  /** The provider's state together with the browser's stored account entry. */
  datatype Session = Session(wallet: WalletState, storage: Option<string>)

  const Disconnected := WalletState(false, None, 0.0)

  /** The state agrees with itself and with storage: connected exactly when there is
      an account, and a connected account is the stored one. */
  predicate Consistent(s: Session)
  {
    && (s.wallet.isConnected <==> s.wallet.accountId.Some?)
    && (s.wallet.accountId.Some? ==> s.storage == s.wallet.accountId)
  }

  /** The stored entry restores a session when it is a non-empty string: an empty
      string is falsy in the page's check. */
  predicate Restorable(storage: Option<string>)
  {
    storage.Some? && storage.value != ""
  }

  /** Mounting the provider: a stored account is restored with a balance drawn from
      `random` in [0, 1); otherwise the state stays disconnected. */
  function Mount(storage: Option<string>, random: real): (s: Session)
    requires 0.0 <= random < 1.0
    ensures s.storage == storage
    ensures s.wallet.isConnected <==> Restorable(storage)
    ensures Restorable(storage) ==> s.wallet.accountId == storage && 0.0 <= s.wallet.balance < 1000.0
    ensures !Restorable(storage) ==> s.wallet == Disconnected
  {
    if Restorable(storage) then Session(WalletState(true, storage, random * 1000.0), storage)
    else Session(Disconnected, storage)
  }

  /** What the wallet extension replies to a connection request. */
  datatype HashPackReply = HashPackReply(success: bool, accountId: string, balance: real)

  /** How a connection attempt goes: the extension is present and replies, or the
      demo mode draws an account number and a balance from two random numbers in
      [0, 1), or the extension's request throws. */
  datatype Attempt =
    | HashPack(reply: HashPackReply)
    | Demo(accountRandom: real, balanceRandom: real)
    | Threw

  predicate ValidAttempt(a: Attempt)
  {
    a.Demo? ==> 0.0 <= a.accountRandom < 1.0 && 0.0 <= a.balanceRandom < 1.0
  }

  /** The demo account id: "0.0." followed by a number below one million. */
  function DemoAccountId(random: real): (id: string)
    requires 0.0 <= random < 1.0
    ensures exists serial: int :: 0 <= serial < 1000000 && id == "0.0." + Decimal(serial)
  {
    var serial := (random * 1000000.0).Floor;
    assert 0 <= serial < 1000000;
    "0.0." + Decimal(serial)
  }

  datatype ConnectError = ConnectionThrew

  /** Connecting. A reply without success changes nothing; a thrown request is passed
      on to the button, which keeps the state as it was. */
  function Connect(s: Session, attempt: Attempt): (r: Result<Session, ConnectError>)
    requires ValidAttempt(attempt)
    ensures r.Err? <==> attempt.Threw?
    ensures attempt.HashPack? && !attempt.reply.success ==> r == Ok(s)
    ensures attempt.HashPack? && attempt.reply.success ==>
      r == Ok(Session(WalletState(true, Some(attempt.reply.accountId), attempt.reply.balance),
                      Some(attempt.reply.accountId)))
    ensures attempt.Demo? ==>
      && r.Ok? && r.value.wallet.isConnected
      && r.value.wallet.accountId == Some(DemoAccountId(attempt.accountRandom))
      && r.value.storage == r.value.wallet.accountId
      && 0.0 <= r.value.wallet.balance < 1000.0
  {
    match attempt
    case Threw => Err(ConnectionThrew)
    case HashPack(reply) =>
      if reply.success then
        Ok(Session(WalletState(true, Some(reply.accountId), reply.balance), Some(reply.accountId)))
      else Ok(s)
    case Demo(accountRandom, balanceRandom) =>
      var id := DemoAccountId(accountRandom);
      Ok(Session(WalletState(true, Some(id), balanceRandom * 1000.0), Some(id)))
  }

  /** The connect button: a thrown connection is caught and the state is kept. */
  function HandleConnect(s: Session, attempt: Attempt): (after: Session)
    requires ValidAttempt(attempt)
    ensures attempt.Threw? ==> after == s
    ensures !attempt.Threw? ==> Ok(after) == Connect(s, attempt)
  {
    match Connect(s, attempt)
    case Ok(next) => next
    case Err(_) => s
  }

  /** Disconnecting clears the state and the stored entry. */
  function Disconnect(s: Session): (after: Session)
    ensures !after.wallet.isConnected && after.wallet.accountId.None? && after.wallet.balance == 0.0
    ensures after.storage.None?
  {
    Session(Disconnected, None)
  }

  /** Mounting starts consistent; connecting and disconnecting keep it so. */
  lemma TransitionsKeepConsistency(s: Session, attempt: Attempt, storage: Option<string>, random: real)
    requires ValidAttempt(attempt) && 0.0 <= random < 1.0
    ensures Consistent(Mount(storage, random))
    ensures Consistent(s) ==> Consistent(HandleConnect(s, attempt))
    ensures Consistent(Disconnect(s))
  {
  }

  /** A connection survives a reload: mounting from what connecting stored brings
      back the same account, provided the account id is not empty. */
  lemma ReloadRestoresConnection(s: Session, attempt: Attempt, random: real)
    requires ValidAttempt(attempt) && 0.0 <= random < 1.0
    requires HandleConnect(s, attempt).wallet.isConnected && Consistent(s)
    requires HandleConnect(s, attempt).wallet.accountId != Some("")
    ensures var after := HandleConnect(s, attempt);
      var reloaded := Mount(after.storage, random);
      reloaded.wallet.isConnected && reloaded.wallet.accountId == after.wallet.accountId
  {
    assert Consistent(HandleConnect(s, attempt));
  }

  /** An empty account id from the extension connects, but is stored as an empty
      string and so is forgotten on reload. */
  lemma EmptyAccountIsForgottenOnReload(s: Session, random: real)
    requires 0.0 <= random < 1.0
    ensures var after := HandleConnect(s, HashPack(HashPackReply(true, "", 0.0)));
      after.wallet.isConnected && !Mount(after.storage, random).wallet.isConnected
  {
  }

  /** After disconnecting, a reload finds no session. */
  lemma ReloadAfterDisconnect(s: Session, random: real)
    requires 0.0 <= random < 1.0
    ensures Mount(Disconnect(s).storage, random).wallet == Disconnected
  {
  }
}

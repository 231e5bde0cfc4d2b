/**
 * The gem wallet of the account page: buying and selling gems updates
 * `current_gems`, `total_gems` and a newest-first transaction list, and a
 * sale larger than the balance is refused.
 *
 * The clock, the signed-in user and the outcome of the store write are
 * parameters.
 */
module AccountPage {
  import opened Wrappers
  import opened Strings

  datatype TxKind = Purchase | Sale

  /** One wallet transaction; `date` is a timestamp in milliseconds. */
  datatype GemTx = GemTx(kind: TxKind, amount: int, date: int, status: string)

  /**
   * The `users` document. `profile` holds the text fields the profile form
   * edits (`email`, `username`, `profile_pic`); the gem fields and the
   * transaction list may be missing in a stored document.
   */
  datatype UserInfo = UserInfo(
    profile: map<string, string>,
    isValidator: bool,
    jobCount: int,
    totalGems: Option<int>,
    currentGems: Option<int>,
    transactions: Option<seq<GemTx>>)

  /** `userInfo.current_gems || 0` */
  function Current(u: UserInfo): int {
    u.currentGems.GetOr(0)
  }

  /** `userInfo.total_gems || 0` */
  function TotalGems(u: UserInfo): int {
    u.totalGems.GetOr(0)
  }

  /** `userInfo.transactions || []` */
  function History(u: UserInfo): seq<GemTx> {
    u.transactions.GetOr([])
  }

  const Completed: string := "Completed"

  /** The user document after a purchase of `amount` gems at time `now`. */
  function Purchased(u: UserInfo, amount: int, now: int): (r: UserInfo)
    ensures History(r) == [GemTx(Purchase, amount, now, Completed)] + History(u)
    ensures Current(r) - Current(u) == History(r)[0].amount == amount
    ensures TotalGems(r) == TotalGems(u) + amount
    ensures r.profile == u.profile && r.isValidator == u.isValidator && r.jobCount == u.jobCount
  {
    var tx := GemTx(Purchase, amount, now, Completed);
    u.(currentGems := Some(Current(u) + amount),
       totalGems := Some(TotalGems(u) + amount),
       transactions := Some([tx] + History(u)))
  }

  /** The user document after a sale of `amount` gems at time `now`: `total_gems` is left as it was. */
  function Sold(u: UserInfo, amount: int, now: int): (r: UserInfo)
    ensures History(r) == [GemTx(Sale, -amount, now, Completed)] + History(u)
    ensures Current(r) - Current(u) == History(r)[0].amount == -amount
    ensures r.totalGems == u.totalGems
    ensures r.profile == u.profile && r.isValidator == u.isValidator && r.jobCount == u.jobCount
  {
    var tx := GemTx(Sale, -amount, now, Completed);
    u.(currentGems := Some(Current(u) - amount),
       transactions := Some([tx] + History(u)))
  }

  /** The sum of the amounts of a transaction list. */
  function Net(txs: seq<GemTx>): int {
    if txs == [] then 0 else txs[0].amount + Net(txs[1..])
  }

  /** The sum of the purchase amounts of a transaction list. */
  function Bought(txs: seq<GemTx>): int {
    if txs == [] then 0 else (if txs[0].kind == Purchase then txs[0].amount else 0) + Bought(txs[1..])
  }

  /**
   * A wallet whose whole history is recorded: the balance is the net of the
   * transactions and the lifetime total is the sum of the purchases.
   */
  predicate Ledgered(u: UserInfo) {
    Current(u) == Net(History(u)) && TotalGems(u) == Bought(History(u))
  }

  /** A purchase keeps the balance equal to the net of the recorded transactions. */
  lemma PurchaseKeepsLedger(u: UserInfo, amount: int, now: int)
    requires Ledgered(u)
    ensures Ledgered(Purchased(u, amount, now))
  {
    var r := Purchased(u, amount, now);
    assert History(r)[1..] == History(u);
  }

  /** A sale keeps the balance equal to the net of the recorded transactions. */
  lemma SaleKeepsLedger(u: UserInfo, amount: int, now: int)
    requires Ledgered(u)
    ensures Ledgered(Sold(u, amount, now))
  {
    var r := Sold(u, amount, now);
    assert History(r)[1..] == History(u);
  }

  /** The state of the account page that the gem handlers read and write. */
  class GemAccount {
    /** `user.key`, or `None` when no one is signed in. */
    const userKey: Option<string>
    var userInfo: UserInfo
    var isProcessing: bool
    var saveMessage: string
    var buyAmount: int
    var sellAmount: int

    /** The page's initial state: an empty profile, no gems, amounts of 100. */
    constructor (userKey: Option<string>)
      ensures this.userKey == userKey
      ensures userInfo == UserInfo(map["email" := "", "username" := "", "profile_pic" := ""],
                                   false, 0, Some(0), Some(0), Some([]))
      ensures !isProcessing && saveMessage == "" && buyAmount == 100 && sellAmount == 100
    {
      this.userKey := userKey;
      userInfo := UserInfo(map["email" := "", "username" := "", "profile_pic" := ""],
                           false, 0, Some(0), Some(0), Some([]));
      isProcessing := false;
      saveMessage := "";
      buyAmount := 100;
      sellAmount := 100;
    }

    /** The profile form: the input whose id is `id` replaces that one field. */
    method InputChange(id: string, value: string)
      modifies this`userInfo
      ensures userInfo == old(userInfo).(profile := old(userInfo).profile[id := value])
      ensures id in userInfo.profile && userInfo.profile[id] == value
      ensures forall k :: k in old(userInfo).profile && k != id ==>
                k in userInfo.profile && userInfo.profile[k] == old(userInfo).profile[k]
    {
      userInfo := userInfo.(profile := userInfo.profile[id := value]);
    }

    method SetBuyAmount(amount: int)
      modifies this`buyAmount
      ensures buyAmount == amount
    {
      buyAmount := amount;
    }

    method SetSellAmount(amount: int)
      modifies this`sellAmount
      ensures sellAmount == amount
    {
      sellAmount := amount;
    }

    /**
     * "Buy Gems". Without a user, while another transaction is processing or
     * for a non-positive amount nothing happens. Otherwise the purchased
     * document is written, and it replaces the local one only if the write
     * succeeded; `isProcessing` ends false either way.
     */
    method BuyGems(now: int, writeOk: bool) returns (written: Option<UserInfo>)
      modifies this`userInfo, this`isProcessing, this`saveMessage
      ensures var guarded := userKey.None? || old(isProcessing) || buyAmount <= 0;
              && (guarded ==> written.None? && userInfo == old(userInfo)
                              && isProcessing == old(isProcessing) && saveMessage == old(saveMessage))
              && (!guarded ==> written == Some(Purchased(old(userInfo), buyAmount, now)) && !isProcessing)
              && (!guarded && writeOk ==>
                    userInfo == Purchased(old(userInfo), buyAmount, now)
                    && saveMessage == "Successfully purchased " + Decimal(buyAmount) + " gems!")
              && (!guarded && !writeOk ==>
                    userInfo == old(userInfo)
                    && saveMessage == "Failed to purchase gems. Please try again.")
    {
      written := None;
      if userKey.None? || isProcessing || buyAmount <= 0 {
        return;
      }
      isProcessing := true;
      saveMessage := "";
      var updated := Purchased(userInfo, buyAmount, now);
      written := Some(updated);
      if writeOk {
        userInfo := updated;
        saveMessage := "Successfully purchased " + Decimal(buyAmount) + " gems!";
      } else {
        saveMessage := "Failed to purchase gems. Please try again.";
      }
      isProcessing := false;
    }

    /**
     * "Sell Gems". Guarded like a purchase; a sale of more gems than the
     * balance is refused with "Not enough gems to sell!" before anything is
     * written. Otherwise the sold document is written and adopted on success.
     */
    method SellGems(now: int, writeOk: bool) returns (written: Option<UserInfo>)
      modifies this`userInfo, this`isProcessing, this`saveMessage
      ensures var guarded := userKey.None? || old(isProcessing) || sellAmount <= 0;
              var short := !guarded && Current(old(userInfo)) < sellAmount;
              && (guarded ==> written.None? && userInfo == old(userInfo)
                              && isProcessing == old(isProcessing) && saveMessage == old(saveMessage))
              && (short ==> written.None? && userInfo == old(userInfo) && !isProcessing
                            && saveMessage == "Not enough gems to sell!")
              && (!guarded && !short ==> written == Some(Sold(old(userInfo), sellAmount, now)) && !isProcessing)
              && (!guarded && !short && writeOk ==>
                    userInfo == Sold(old(userInfo), sellAmount, now)
                    && saveMessage == "Successfully sold " + Decimal(sellAmount) + " gems!")
              && (!guarded && !short && !writeOk ==>
                    userInfo == old(userInfo)
                    && saveMessage == "Failed to sell gems. Please try again.")
      ensures Current(old(userInfo)) >= 0 ==> Current(userInfo) >= 0
    {
      written := None;
      if userKey.None? || isProcessing || sellAmount <= 0 {
        return;
      }
      isProcessing := true;
      saveMessage := "";
      if Current(userInfo) < sellAmount {
        saveMessage := "Not enough gems to sell!";
        isProcessing := false;
        return;
      }
      var updated := Sold(userInfo, sellAmount, now);
      written := Some(updated);
      if writeOk {
        userInfo := updated;
        saveMessage := "Successfully sold " + Decimal(sellAmount) + " gems!";
      } else {
        saveMessage := "Failed to sell gems. Please try again.";
      }
      isProcessing := false;
    }
  }
}

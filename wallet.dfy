/**
 * The dashboard wallet card: the balance change over the last seven days
 * and the three most recent transactions. The clock is a parameter `now`
 * (milliseconds), and the week is seven days of milliseconds.
 */
module Wallet {
  import opened Strings
  import opened AccountPage
  import Seqs

  const WeekMs: int := 7 * 24 * 60 * 60 * 1000

  /** Whether a transaction is dated at or after `cutoff`. */
  function OnOrAfter(cutoff: int): GemTx -> bool {
    (tx: GemTx) => tx.date >= cutoff
  }

  /** `txs.reduce((acc, tx) => acc + tx.amount, acc)` */
  function Reduce(acc: int, txs: seq<GemTx>): int
    decreases |txs|
  {
    if txs == [] then acc else Reduce(acc + txs[0].amount, txs[1..])
  }

  /**
   * `calculateWeeklyChange` as the new value of `weeklyChange`: an empty list
   * leaves `previous` in place; otherwise the amounts of the transactions of the
   * last seven days are added up.
   */
  function WeeklyChange(previous: int, txs: seq<GemTx>, now: int): (r: int)
    ensures txs == [] ==> r == previous
    ensures txs != [] ==> r == WindowSum(txs, now - WeekMs)
  {
    if |txs| == 0 then previous
    else
      var window := Seqs.Filter(txs, OnOrAfter(now - WeekMs));
      ReduceIsNet(0, window);
      FilteredNetIsWindowSum(txs, now - WeekMs);
      Reduce(0, window)
  }

  /** The reference sum: the amounts of the transactions dated at or after `cutoff`. */
  function WindowSum(txs: seq<GemTx>, cutoff: int): int {
    if txs == [] then 0
    else (if txs[0].date >= cutoff then txs[0].amount else 0) + WindowSum(txs[1..], cutoff)
  }

  lemma {:induction false} ReduceIsNet(acc: int, txs: seq<GemTx>)
    ensures Reduce(acc, txs) == acc + Net(txs)
    decreases |txs|
  {
    if txs != [] {
      ReduceIsNet(acc + txs[0].amount, txs[1..]);
    }
  }

  lemma {:induction false} FilteredNetIsWindowSum(txs: seq<GemTx>, cutoff: int)
    ensures Net(Seqs.Filter(txs, OnOrAfter(cutoff))) == WindowSum(txs, cutoff)
  {
    if txs != [] {
      FilteredNetIsWindowSum(txs[1..], cutoff);
      var head := if txs[0].date >= cutoff then [txs[0]] else [];
      assert Seqs.Filter(txs, OnOrAfter(cutoff)) == head + Seqs.Filter(txs[1..], OnOrAfter(cutoff));
      NetAppend(head, Seqs.Filter(txs[1..], OnOrAfter(cutoff)));
      assert head != [] ==> head[1..] == [];
    }
  }

  lemma {:induction false} NetAppend(a: seq<GemTx>, b: seq<GemTx>)
    ensures Net(a + b) == Net(a) + Net(b)
  {
    if a != [] {
      NetAppend(a[1..], b);
      assert (a + b)[0] == a[0] && (a + b)[1..] == a[1..] + b;
    } else {
      assert a + b == b;
    }
  }

  lemma {:induction false} WindowSumAppend(a: seq<GemTx>, b: seq<GemTx>, cutoff: int)
    ensures WindowSum(a + b, cutoff) == WindowSum(a, cutoff) + WindowSum(b, cutoff)
  {
    if a != [] {
      WindowSumAppend(a[1..], b, cutoff);
      assert (a + b)[0] == a[0] && (a + b)[1..] == a[1..] + b;
    } else {
      assert a + b == b;
    }
  }

  /**
   * The window is inclusive: a transaction dated exactly at the cutoff counts,
   * and one dated before it, wherever it stands in the list, does not.
   */
  lemma WindowBoundary(a: seq<GemTx>, tx: GemTx, b: seq<GemTx>, cutoff: int)
    ensures tx.date == cutoff ==> WindowSum(a + [tx] + b, cutoff) == WindowSum(a + b, cutoff) + tx.amount
    ensures tx.date < cutoff ==> WindowSum(a + [tx] + b, cutoff) == WindowSum(a + b, cutoff)
  {
    WindowSumAppend(a + [tx], b, cutoff);
    WindowSumAppend(a, [tx], cutoff);
    WindowSumAppend(a, b, cutoff);
    assert [tx][1..] == [];
  }

  lemma {:induction false} WindowSumAllRecent(txs: seq<GemTx>, cutoff: int)
    requires forall i :: 0 <= i < |txs| ==> txs[i].date >= cutoff
    ensures WindowSum(txs, cutoff) == Net(txs)
  {
    if txs != [] {
      WindowSumAllRecent(txs[1..], cutoff);
    }
  }

  /**
   * For a wallet whose balance is the net of its recorded history and whose
   * history all lies within the last week, the weekly change is the balance.
   */
  lemma WeeklyChangeOfNewWallet(previous: int, u: UserInfo, now: int)
    requires Ledgered(u) && History(u) != []
    requires forall i :: 0 <= i < |History(u)| ==> History(u)[i].date >= now - WeekMs
    ensures WeeklyChange(previous, History(u), now) == Current(u)
  {
    WindowSumAllRecent(History(u), now - WeekMs);
  }

  /** `transactions.slice(0, 3)`: the recent activity list, the first three transactions or all of fewer. */
  function RecentActivity(txs: seq<GemTx>): (r: seq<GemTx>)
    ensures |r| == (if |txs| < 3 then |txs| else 3)
    ensures r == txs[..|r|]
  {
    if |txs| <= 3 then txs else txs[..3]
  }

  /**
   * Recent activity shows at most three transactions, from the front; so after
   * a purchase the new one leads, followed by the two that led before.
   */
  lemma RecentAfterPurchase(u: UserInfo, amount: int, now: int)
    ensures var shown := RecentActivity(History(Purchased(u, amount, now)));
            var before := RecentActivity(History(u));
            && 1 <= |shown| <= 3
            && shown[0] == GemTx(Purchase, amount, now, Completed)
            && shown[1..] == before[..if |before| < 2 then |before| else 2]
  {
  }

  /**
   * The label of a change: a "+" before a non-negative number, nothing
   * before a negative one, whose own rendering starts with "-".
   */
  function ChangeLabel(v: int): (r: string)
    ensures r != []
    ensures r[0] == '+' <==> v >= 0
    ensures r[0] == '-' <==> v < 0
    ensures v >= 0 ==> r[1..] == Decimal(v)
    ensures v < 0 ==> r[1..] == Decimal(-v)
  {
    (if v >= 0 then "+" else "") + IntString(v)
  }
}

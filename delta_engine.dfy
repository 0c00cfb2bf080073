// The delta engine: spot holdings and the signed futures position of one
// symbol, both in base units, and the net delta between them.
module DeltaEngine {
  import opened Common

  const QUOTE_SUFFIX: string := "USDT"

  predicate EndsWith(s: string, suffix: string)
  {
    |suffix| <= |s| && s[|s| - |suffix|..] == suffix
  }

  /** Every non-overlapping occurrence of `pat` removed, scanning left to right
      (Python's `s.replace(pat, "")`). */
  function RemoveAll(s: string, pat: string): string
    requires |pat| > 0
    decreases |s|
  {
    if |s| < |pat| then s
    else if s[..|pat|] == pat then RemoveAll(s[|pat|..], pat)
    else [s[0]] + RemoveAll(s[1..], pat)
  }

  predicate MatchAt(s: string, pat: string, i: int)
  {
    0 <= i && i + |pat| <= |s| && s[i..i + |pat|] == pat
  }

  ghost predicate Occurs(s: string, pat: string)
  {
    exists i :: MatchAt(s, pat, i)
  }

  /** The base asset of a spot symbol: every "USDT" removed when the symbol
      ends in "USDT", otherwise the symbol itself. */
  function BaseSymbolOf(spotSymbol: string): string
  {
    if EndsWith(spotSymbol, QUOTE_SUFFIX) then RemoveAll(spotSymbol, QUOTE_SUFFIX) else spotSymbol
  }

  /** The quote suffix is stripped exactly from a base that does not contain it. */
  lemma {:induction false} BaseOfQuotedSymbol(base: string)
    requires !Occurs(base, QUOTE_SUFFIX)
    ensures BaseSymbolOf(base + QUOTE_SUFFIX) == base
  {
    assert (base + QUOTE_SUFFIX)[|base|..] == QUOTE_SUFFIX;
    RemoveSuffix(base);
  }

  /** An occurrence in the tail is an occurrence in the whole string. */
  lemma OccursInTail(s: string, pat: string)
    requires |s| > 0
    ensures Occurs(s[1..], pat) ==> Occurs(s, pat)
  {
    if Occurs(s[1..], pat) {
      var i :| MatchAt(s[1..], pat, i);
      assert s[1..][i..i + |pat|] == s[i + 1..i + 1 + |pat|];
      assert MatchAt(s, pat, i + 1);
    }
  }

  lemma {:induction false} RemoveSuffix(base: string)
    requires !Occurs(base, QUOTE_SUFFIX)
    ensures RemoveAll(base + QUOTE_SUFFIX, QUOTE_SUFFIX) == base
    decreases |base|
  {
    var s := base + QUOTE_SUFFIX;
    if base == [] {
      assert s == QUOTE_SUFFIX;
      assert s[4..] == [];
    } else {
      assert s[..4] != QUOTE_SUFFIX by {
        if |base| >= 4 {
          assert s[..4] == base[0..4];
          assert !MatchAt(base, QUOTE_SUFFIX, 0);
        } else {
          assert s[..4][|base|] == 'U' != QUOTE_SUFFIX[|base|];
        }
      }
      assert s[1..] == base[1..] + QUOTE_SUFFIX;
      OccursInTail(base, QUOTE_SUFFIX);
      RemoveSuffix(base[1..]);
      assert [base[0]] + base[1..] == base;
    }
  }

  /** A wallet balance field: missing or empty (read as 0), a number, or text
      that does not convert to a number. */
  datatype WalletBalance = Absent | Amount(value: real) | Unparseable

  datatype CoinEntry = CoinEntry(coin: string, walletBalance: WalletBalance)
  datatype Account = Account(coins: seq<CoinEntry>)

  /** The answer to a coin-balance request. `NoBalances` is an empty answer or a
      request that raised. */
  datatype BalanceResponse = NoBalances | Balances(retCode: int, accounts: seq<Account>)

  /** The coin entries of all accounts, in order. */
  function Entries(accounts: seq<Account>): seq<CoinEntry>
  {
    if accounts == [] then [] else accounts[0].coins + Entries(accounts[1..])
  }

  /** Adding up the balances of the matching entries: `sum` is the total so far
      and `complete` says whether every matching entry converted; the scan
      stops at the first one that does not. */
  datatype Scan = Scan(sum: real, complete: bool)

  function ScanBalances(entries: seq<CoinEntry>, coin: string): Scan
  {
    if entries == [] then Scan(0.0, true)
    else if entries[0].coin != coin then ScanBalances(entries[1..], coin)
    else match entries[0].walletBalance
      case Unparseable => Scan(0.0, false)
      case Absent => ScanBalances(entries[1..], coin)
      case Amount(v) =>
        var rest := ScanBalances(entries[1..], coin);
        Scan(v + rest.sum, rest.complete)
  }

  /** Total balance of the entries of the given coin, ignoring conversion errors. */
  function MatchingTotal(entries: seq<CoinEntry>, coin: string): real
  {
    if entries == [] then 0.0
    else (if entries[0].coin == coin && entries[0].walletBalance.Amount? then entries[0].walletBalance.value else 0.0)
         + MatchingTotal(entries[1..], coin)
  }

  predicate Convertible(entries: seq<CoinEntry>, coin: string)
  {
    forall i :: 0 <= i < |entries| && entries[i].coin == coin ==> !entries[i].walletBalance.Unparseable?
  }

  /** Without conversion errors the scan is complete and its sum is the total of
      the matching balances. */
  lemma {:induction false} ScanIsTotalWhenConvertible(entries: seq<CoinEntry>, coin: string)
    requires Convertible(entries, coin)
    ensures ScanBalances(entries, coin) == Scan(MatchingTotal(entries, coin), true)
    decreases |entries|
  {
    if entries != [] {
      assert Convertible(entries[1..], coin) by {
        forall i | 0 <= i < |entries[1..]| && entries[1..][i].coin == coin
          ensures !entries[1..][i].walletBalance.Unparseable?
        {
          assert entries[1..][i] == entries[i + 1];
        }
      }
      ScanIsTotalWhenConvertible(entries[1..], coin);
    }
  }

  /** A matching entry that does not convert ends the scan: what was added before
      it is kept and nothing after it counts. */
  lemma {:induction false} ScanStopsAtUnparseable(before: seq<CoinEntry>, bad: CoinEntry, after: seq<CoinEntry>, coin: string)
    requires Convertible(before, coin) && bad.coin == coin && bad.walletBalance.Unparseable?
    ensures ScanBalances(before + [bad] + after, coin) == Scan(MatchingTotal(before, coin), false)
    decreases |before|
  {
    var s := before + [bad] + after;
    if before == [] {
      assert s == [bad] + after;
    } else {
      assert s[0] == before[0];
      assert s[1..] == before[1..] + [bad] + after;
      assert Convertible(before[1..], coin) by {
        forall i | 0 <= i < |before[1..]| && before[1..][i].coin == coin
          ensures !before[1..][i].walletBalance.Unparseable?
        {
          assert before[1..][i] == before[i + 1];
        }
      }
      ScanStopsAtUnparseable(before[1..], bad, after, coin);
    }
  }

  /** The scan is complete exactly when every matching entry converts. */
  lemma {:induction false} ScanCompleteIffConvertible(entries: seq<CoinEntry>, coin: string)
    ensures ScanBalances(entries, coin).complete <==> Convertible(entries, coin)
    decreases |entries|
  {
    if entries != [] {
      ScanCompleteIffConvertible(entries[1..], coin);
      if Convertible(entries[1..], coin) && !(entries[0].coin == coin && entries[0].walletBalance.Unparseable?) {
        forall i | 0 <= i < |entries| && entries[i].coin == coin
          ensures !entries[i].walletBalance.Unparseable?
        {
          if i > 0 { assert entries[i] == entries[1..][i - 1]; }
        }
      }
      if Convertible(entries, coin) {
        forall i | 0 <= i < |entries[1..]| && entries[1..][i].coin == coin
          ensures !entries[1..][i].walletBalance.Unparseable?
        {
          assert entries[1..][i] == entries[i + 1];
        }
      }
    }
  }

  /** The entries from account `a` on are its coins, then those of the later accounts. */
  lemma EntriesFrom(accounts: seq<Account>, a: int)
    requires 0 <= a < |accounts|
    ensures Entries(accounts[a..]) == accounts[a].coins + Entries(accounts[a + 1..])
  {
    assert accounts[a..][1..] == accounts[a + 1..];
  }

  /** Scanning two batches of entries: the second one counts only when the
      first one converted completely. */
  lemma {:induction false} ScanAppend(xs: seq<CoinEntry>, ys: seq<CoinEntry>, coin: string)
    ensures ScanBalances(xs + ys, coin) ==
            if ScanBalances(xs, coin).complete
            then Scan(ScanBalances(xs, coin).sum + ScanBalances(ys, coin).sum, ScanBalances(ys, coin).complete)
            else ScanBalances(xs, coin)
    decreases |xs|
  {
    if xs == [] {
      assert xs + ys == ys;
    } else {
      assert (xs + ys)[0] == xs[0] && (xs + ys)[1..] == xs[1..] + ys;
      ScanAppend(xs[1..], ys, coin);
    }
  }

  /** get_spot_base as a function of the balance answer. */
  function SpotBase(resp: BalanceResponse, baseSymbol: string): real
  {
    if resp.NoBalances? || resp.retCode != 0 then 0.0
    else ScanBalances(Entries(resp.accounts), baseSymbol).sum
  }

  /** A futures position record; `size` is None when the size does not convert
      to a number, and `markPrice` is 0 when missing or not a number. */
  datatype PositionRecord = PositionRecord(size: Option<real>, side: string, markPrice: real)

  /** The answer to a positions request. `NoPositions` is an empty answer or a
      request that raised. */
  datatype PositionResponse = NoPositions | Positions(retCode: int, records: seq<PositionRecord>)

  /** The size signed by side: + for "Buy", - for "Sell", 0 for any other side. */
  function SignedSize(size: real, side: string): (r: real)
    ensures side == "Buy" ==> r == size
    ensures side == "Sell" ==> r == -size
    ensures side != "Buy" && side != "Sell" ==> r == 0.0
  {
    if side == "Buy" then size else if side == "Sell" then -size else 0.0
  }

  /** get_futures_base: the signed size of the first position, or 0 when the request
      failed, there is no position, the side is unknown, or no positive price
      (the given mark price, else the position's own) is available. */
  function FuturesBase(markPrice: Option<real>, resp: PositionResponse): (r: real)
    ensures resp.NoPositions? || resp.retCode != 0 || resp.records == [] ==> r == 0.0
    ensures r != 0.0 ==> resp.Positions? && resp.records != [] && resp.records[0].size.Some? &&
                         r == SignedSize(resp.records[0].size.value, resp.records[0].side)
    ensures r != 0.0 ==> (if markPrice.Some? then markPrice.value else resp.records[0].markPrice) > 0.0
  {
    if resp.NoPositions? || resp.retCode != 0 then 0.0
    else if resp.records == [] then 0.0
    else
      var pos := resp.records[0];
      if pos.size.None? then 0.0
      else
        var signed := SignedSize(pos.size.value, pos.side);
        if signed == 0.0 then 0.0
        else
          var px := if markPrice.Some? then markPrice.value else pos.markPrice;
          if px <= 0.0 then 0.0 else signed
  }

  /** The futures exposure does not depend on which positive price is used. */
  lemma FuturesBasePriceIndependent(p1: real, p2: real, resp: PositionResponse)
    requires p1 > 0.0 && p2 > 0.0
    ensures FuturesBase(Some(p1), resp) == FuturesBase(Some(p2), resp)
  {
  }

  /** With a positive price, an open position of a known side is its signed size. */
  lemma FuturesBaseOfOpenPosition(p: real, size: real, side: string, mark: real, rest: seq<PositionRecord>)
    requires p > 0.0 && (side == "Buy" || side == "Sell")
    ensures FuturesBase(Some(p), Positions(0, [PositionRecord(Some(size), side, mark)] + rest))
            == SignedSize(size, side)
  {
  }

  datatype DeltaSnapshot = DeltaSnapshot(spotBase: real, futuresBase: real, netBaseDelta: real,
                                         desiredNetDeltaBase: real)

  /** The engine's configuration, fixed at construction. */
  class DeltaEngine {
    const spotSymbol: string
    const futuresSymbol: string
    const baseSymbol: string
    const desiredNetDeltaBase: real

    /** An empty or absent futures symbol defaults to the spot symbol. */
    constructor (spotSymbol: string, futuresSymbol: Option<string>, desiredNetDeltaBase: real)
      ensures this.spotSymbol == spotSymbol
      ensures this.futuresSymbol == if futuresSymbol.Some? && futuresSymbol.value != "" then futuresSymbol.value else spotSymbol
      ensures this.baseSymbol == BaseSymbolOf(spotSymbol)
      ensures this.desiredNetDeltaBase == desiredNetDeltaBase
    {
      this.spotSymbol := spotSymbol;
      this.futuresSymbol := if futuresSymbol.Some? && futuresSymbol.value != "" then futuresSymbol.value else spotSymbol;
      this.baseSymbol := if EndsWith(spotSymbol, QUOTE_SUFFIX) then RemoveAll(spotSymbol, QUOTE_SUFFIX) else spotSymbol;
      this.desiredNetDeltaBase := desiredNetDeltaBase;
    }

    /** get_spot_base: the nested loop over accounts and coins. */
    method GetSpotBase(resp: BalanceResponse) returns (bal: real)
      ensures bal == SpotBase(resp, baseSymbol)
    {
      bal := 0.0;
      if resp.NoBalances? || resp.retCode != 0 {
        return;
      }
      var accounts := resp.accounts;
      ghost var all := Entries(accounts);
      var a := 0;
      while a < |accounts|
        invariant 0 <= a <= |accounts|
        invariant ScanBalances(all, baseSymbol).sum == bal + ScanBalances(Entries(accounts[a..]), baseSymbol).sum
        invariant ScanBalances(all, baseSymbol).complete == ScanBalances(Entries(accounts[a..]), baseSymbol).complete
      {
        var sum, complete := ScanCoins(accounts[a].coins);
        EntriesFrom(accounts, a);
        ScanAppend(accounts[a].coins, Entries(accounts[a + 1..]), baseSymbol);
        bal := bal + sum;
        if !complete {
          return;
        }
        a := a + 1;
      }
    }

    /** The inner loop of get_spot_base over the coins of one account; it stops
        at the first matching balance that does not convert. */
    method ScanCoins(coins: seq<CoinEntry>) returns (sum: real, complete: bool)
      ensures Scan(sum, complete) == ScanBalances(coins, baseSymbol)
    {
      sum := 0.0;
      complete := true;
      var c := 0;
      while c < |coins|
        invariant 0 <= c <= |coins|
        invariant ScanBalances(coins, baseSymbol) ==
                  Scan(sum + ScanBalances(coins[c..], baseSymbol).sum, ScanBalances(coins[c..], baseSymbol).complete)
      {
        assert coins[c..][1..] == coins[c + 1..];
        if coins[c].coin == baseSymbol {
          match coins[c].walletBalance {
            case Unparseable =>
              complete := false;
              return;
            case Absent =>
            case Amount(v) =>
              sum := sum + v;
          }
        }
        c := c + 1;
      }
    }

    /** snapshot: net delta is spot minus futures, and the target is carried along. */
    method Snapshot(markPrice: Option<real>, balances: BalanceResponse, positions: PositionResponse)
      returns (snap: DeltaSnapshot)
      ensures snap.spotBase == SpotBase(balances, baseSymbol)
      ensures snap.futuresBase == FuturesBase(markPrice, positions)
      ensures snap.netBaseDelta == snap.spotBase - snap.futuresBase
      ensures snap.desiredNetDeltaBase == desiredNetDeltaBase
      ensures snap == SnapshotOf(baseSymbol, desiredNetDeltaBase, markPrice, balances, positions)
    {
      var spot := GetSpotBase(balances);
      var futures := FuturesBase(markPrice, positions);
      snap := DeltaSnapshot(spot, futures, spot - futures, desiredNetDeltaBase);
    }
  }

  /** The snapshot as a function of the engine's configuration and the two answers. */
  function SnapshotOf(baseSymbol: string, desired: real, markPrice: Option<real>,
                      balances: BalanceResponse, positions: PositionResponse): DeltaSnapshot
  {
    var spot := SpotBase(balances, baseSymbol);
    var futures := FuturesBase(markPrice, positions);
    DeltaSnapshot(spot, futures, spot - futures, desired)
  }

  /** Failed reads count as zero exposure on their leg and raise nothing. */
  lemma SnapshotOnFailedReads(baseSymbol: string, desired: real, markPrice: Option<real>,
                              balances: BalanceResponse, positions: PositionResponse)
    ensures balances.NoBalances? ==>
              SnapshotOf(baseSymbol, desired, markPrice, balances, positions).netBaseDelta == -FuturesBase(markPrice, positions)
    ensures positions.NoPositions? ==>
              SnapshotOf(baseSymbol, desired, markPrice, balances, positions).netBaseDelta == SpotBase(balances, baseSymbol)
  {
  }
}

/** The MACD crossover labeler: one forward pass over the per-bar close,
    MACD and signal-line values that marks every bar with a flag and records
    a buy or sell price only on the bar where a direction is entered.

    Three descriptions of the same labeling live here:
    - `FlagAt` / `TriggerAt`: a reference that says, bar by bar, what the
      output must be;
    - `Scan`: a functional fold that, like the dashboard's loop, decides each
      bar from the flag it gave the previous bar;
    - `LabelBars`: the loop itself over mutable columns.
    `ScanMatchesReference` and the contract of `LabelBars` tie them together. */
module Labeler {
  import opened Wrappers

  /** A bar's flag. The dashboard stores it as a string column: 'C' (compra,
      buy), 'V' (venda, sell) or '' (no signal). */
  datatype Flag = Buy | Sell | Hold

  /** The string the dashboard writes into the flag column. */
  function Code(f: Flag): (s: string)
    ensures s == "C" <==> f == Buy
    ensures s == "V" <==> f == Sell
    ensures s == "" <==> f == Hold
  {
    match f
    case Buy => "C"
    case Sell => "V"
    case Hold => ""
  }

  /** Reads a flag-column string back; only the three codes are flags. */
  function ParseCode(s: string): (r: Option<Flag>)
    ensures r.Some? ==> Code(r.value) == s
  {
    if s == "C" then Some(Buy)
    else if s == "V" then Some(Sell)
    else if s == "" then Some(Hold)
    else None
  }

  /** `ParseCode` undoes `Code`, and accepts nothing but the three codes. */
  lemma CodeRoundTrip(f: Flag, s: string)
    ensures ParseCode(Code(f)) == Some(f)
    ensures ParseCode(s).Some? <==> s in {"C", "V", ""}
  {
  }

  /** The directional reading of one bar: buy when MACD is above the signal
      line, sell when below, no signal on a tie. */
  function Crossing(macd: real, signal: real): (f: Flag)
    ensures f == Buy <==> macd > signal
    ensures f == Sell <==> macd < signal
    ensures f == Hold <==> macd == signal
  {
    if macd > signal then Buy
    else if macd < signal then Sell
    else Hold
  }

  /** The three per-bar input columns come from one data frame, so they
      have one entry per bar each. */
  predicate Aligned(close: seq<real>, macd: seq<real>, signal: seq<real>)
  {
    |close| == |macd| == |signal|
  }

  // ---------------------------------------------------------------------
  // Bar-by-bar reference

  /** The flag bar `i` must carry: bar 0 is never examined and keeps the
      initial no-signal flag; every later bar reads only its own values. */
  function FlagAt(macd: seq<real>, signal: seq<real>, i: nat): Flag
    requires |macd| == |signal| && i < |macd|
  {
    if i == 0 then Hold else Crossing(macd[i], signal[i])
  }

  /** The price recorded at bar `i` in the column for direction `d`: the
      bar's close, exactly when bar `i` enters direction `d` from a bar that
      was not already in it. */
  function TriggerAt(close: seq<real>, macd: seq<real>, signal: seq<real>, i: nat, d: Flag): Option<real>
    requires Aligned(close, macd, signal) && i < |close|
  {
    if 1 <= i && FlagAt(macd, signal, i) == d && FlagAt(macd, signal, i - 1) != d
    then Some(close[i])
    else None
  }

  // ---------------------------------------------------------------------
  // Functional fold

  /** What the loop writes for one bar, given the flag of the bar before. */
  datatype Label = Label(flag: Flag, buy: Option<real>, sell: Option<real>)

  /** The output columns: flag, buy price, sell price. */
  datatype Frame = Frame(flags: seq<Flag>, buy: seq<Option<real>>, sell: seq<Option<real>>)
  {
    predicate WellShaped(n: nat)
    {
      |flags| == n && |buy| == n && |sell| == n
    }
  }

  /** One iteration of the loop body: the two directional branches set the
      flag and record the close only when the previous flag differs; the tie
      case assigns nothing, so the bar keeps its initial no-signal entries. */
  function Step(prev: Flag, close: real, macd: real, signal: real): (l: Label)
    ensures l.flag == Crossing(macd, signal)
    ensures l.buy.Some? <==> l.flag == Buy && prev != Buy
    ensures l.sell.Some? <==> l.flag == Sell && prev != Sell
    ensures l.buy.Some? ==> l.buy.value == close
    ensures l.sell.Some? ==> l.sell.value == close
  {
    if macd > signal then
      if prev != Buy then Label(Buy, Some(close), None) else Label(Buy, None, None)
    else if macd < signal then
      if prev != Sell then Label(Sell, None, Some(close)) else Label(Sell, None, None)
    else
      Label(Hold, None, None)
  }

  /** The columns after the first `n` bars have been labeled, each bar
      decided from the flag the fold gave the bar before it. */
  function Scan(close: seq<real>, macd: seq<real>, signal: seq<real>, n: nat): (fr: Frame)
    requires Aligned(close, macd, signal) && n <= |close|
    ensures fr.WellShaped(n)
    ensures 0 < n ==> fr.flags[0] == Hold && fr.buy[0] == None && fr.sell[0] == None
    decreases n
  {
    if n == 0 then Frame([], [], [])
    else if n == 1 then Frame([Hold], [None], [None])
    else
      var prior := Scan(close, macd, signal, n - 1);
      var l := Step(prior.flags[n - 2], close[n - 1], macd[n - 1], signal[n - 1]);
      Frame(prior.flags + [l.flag], prior.buy + [l.buy], prior.sell + [l.sell])
  }

  /** The fold agrees with the bar-by-bar reference on every bar: the flag a
      bar gets from the scan depends on its own values only, and its prices
      are exactly the edge triggers. */
  lemma {:induction false} ScanMatchesReference(close: seq<real>, macd: seq<real>, signal: seq<real>, n: nat)
    requires Aligned(close, macd, signal) && n <= |close|
    ensures forall i :: 0 <= i < n ==> Scan(close, macd, signal, n).flags[i] == FlagAt(macd, signal, i)
    ensures forall i :: 0 <= i < n ==> Scan(close, macd, signal, n).buy[i] == TriggerAt(close, macd, signal, i, Buy)
    ensures forall i :: 0 <= i < n ==> Scan(close, macd, signal, n).sell[i] == TriggerAt(close, macd, signal, i, Sell)
    decreases n
  {
    if n > 1 {
      ScanMatchesReference(close, macd, signal, n - 1);
      var prior := Scan(close, macd, signal, n - 1);
      var fr := Scan(close, macd, signal, n);
      forall i | 0 <= i < n
        ensures fr.flags[i] == FlagAt(macd, signal, i)
        ensures fr.buy[i] == TriggerAt(close, macd, signal, i, Buy)
        ensures fr.sell[i] == TriggerAt(close, macd, signal, i, Sell)
      {
        if i < n - 1 {
          assert fr.flags[i] == prior.flags[i];
          assert fr.buy[i] == prior.buy[i];
          assert fr.sell[i] == prior.sell[i];
        }
      }
    }
  }

  // ---------------------------------------------------------------------
  // The loop

  /** Labels every bar in one forward pass over mutable columns, starting
      from all-no-signal flags and empty price columns and visiting bars 1
      to n-1, each deciding from the flag already written for the bar
      before. */
  method LabelBars(close: seq<real>, macd: seq<real>, signal: seq<real>)
    returns (flags: seq<Flag>, buy: seq<Option<real>>, sell: seq<Option<real>>)
    requires Aligned(close, macd, signal)
    ensures |flags| == |close| && |buy| == |close| && |sell| == |close|
    // bar 0 is never examined
    ensures |close| > 0 ==> flags[0] == Hold && buy[0] == None && sell[0] == None
    // every later flag reads its own bar only
    ensures forall i :: 1 <= i < |close| ==> (flags[i] == Buy <==> macd[i] > signal[i])
    ensures forall i :: 1 <= i < |close| ==> (flags[i] == Sell <==> macd[i] < signal[i])
    ensures forall i :: 1 <= i < |close| ==> (flags[i] == Hold <==> macd[i] == signal[i])
    // prices are recorded on entry into a direction only, at that bar's close
    ensures forall i :: 0 <= i < |close| ==>
      (buy[i].Some? <==> 1 <= i && flags[i] == Buy && flags[i - 1] != Buy)
    ensures forall i :: 0 <= i < |close| ==>
      (sell[i].Some? <==> 1 <= i && flags[i] == Sell && flags[i - 1] != Sell)
    ensures forall i :: 0 <= i < |close| && buy[i].Some? ==> buy[i].value == close[i]
    ensures forall i :: 0 <= i < |close| && sell[i].Some? ==> sell[i].value == close[i]
    // the loop computes the fold
    ensures Frame(flags, buy, sell) == Scan(close, macd, signal, |close|)
  {
    var n := |close|;
    var f := new Flag[n](_ => Hold);
    var b := new Option<real>[n](_ => None);
    var s := new Option<real>[n](_ => None);
    if n > 0 {
      var i := 1;
      while i < n
        invariant 1 <= i <= n
        invariant forall k :: 0 <= k < i ==> f[k] == FlagAt(macd, signal, k)
        invariant forall k :: 0 <= k < i ==> b[k] == TriggerAt(close, macd, signal, k, Buy)
        invariant forall k :: 0 <= k < i ==> s[k] == TriggerAt(close, macd, signal, k, Sell)
        invariant forall k :: i <= k < n ==> f[k] == Hold && b[k] == None && s[k] == None
      {
        if macd[i] > signal[i] {
          if f[i - 1] != Buy {
            f[i] := Buy;
            b[i] := Some(close[i]);
          } else {
            f[i] := Buy;
          }
        } else if macd[i] < signal[i] {
          if f[i - 1] != Sell {
            f[i] := Sell;
            s[i] := Some(close[i]);
          } else {
            f[i] := Sell;
          }
        }
        i := i + 1;
      }
    }
    flags, buy, sell := f[..], b[..], s[..];
    ScanMatchesReference(close, macd, signal, n);
    assert Frame(flags, buy, sell) == Scan(close, macd, signal, n);
  }

  // ---------------------------------------------------------------------
  // Properties of the labeling

  /** No bar carries both a buy price and a sell price. */
  lemma {:induction false} NoBarBuysAndSells(close: seq<real>, macd: seq<real>, signal: seq<real>, i: nat)
    requires Aligned(close, macd, signal) && i < |close|
    ensures var fr := Scan(close, macd, signal, |close|);
      !(fr.buy[i].Some? && fr.sell[i].Some?)
  {
    ScanMatchesReference(close, macd, signal, |close|);
  }

  /** A bar that stays in the direction of the bar before it, or that has no
      signal, records no price. */
  lemma {:induction false} ContinuationHasNoTrigger(close: seq<real>, macd: seq<real>, signal: seq<real>, i: nat)
    requires Aligned(close, macd, signal) && i < |close|
    ensures var fr := Scan(close, macd, signal, |close|);
      1 <= i && fr.flags[i] == fr.flags[i - 1] ==> fr.buy[i] == None && fr.sell[i] == None
    ensures var fr := Scan(close, macd, signal, |close|);
      fr.flags[i] == Hold ==> fr.buy[i] == None && fr.sell[i] == None
  {
    ScanMatchesReference(close, macd, signal, |close|);
  }

  /** Triggers are edges: between two buy prices (or two sell prices) there
      is a bar outside that direction, namely the bar just before the later
      one. */
  lemma {:induction false} TriggersAreSeparated(close: seq<real>, macd: seq<real>, signal: seq<real>, i: nat, j: nat, d: Flag)
    requires Aligned(close, macd, signal) && i < j < |close| && d != Hold
    requires var fr := Scan(close, macd, signal, |close|);
      (d == Buy ==> fr.buy[i].Some? && fr.buy[j].Some?) &&
      (d == Sell ==> fr.sell[i].Some? && fr.sell[j].Some?)
    ensures var fr := Scan(close, macd, signal, |close|);
      i < j - 1 && fr.flags[j - 1] != d
  {
    ScanMatchesReference(close, macd, signal, |close|);
  }

  /** A bar's flag depends on that bar's MACD and signal values alone:
      two series that agree at bar `i` get the same flag there. */
  lemma {:induction false} FlagIsLocal(close: seq<real>, macd: seq<real>, signal: seq<real>,
                                       close': seq<real>, macd': seq<real>, signal': seq<real>, i: nat)
    requires Aligned(close, macd, signal) && Aligned(close', macd', signal')
    requires i < |close| && i < |close'|
    requires macd[i] == macd'[i] && signal[i] == signal'[i]
    ensures Scan(close, macd, signal, |close|).flags[i] == Scan(close', macd', signal', |close'|).flags[i]
  {
    ScanMatchesReference(close, macd, signal, |close|);
    ScanMatchesReference(close', macd', signal', |close'|);
  }
}

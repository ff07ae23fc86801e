/** One run of the analysis after the MACD and signal columns exist: label
    the bars, then derive the recommendation from the last flag. */
module Analysis {
  import opened Wrappers
  import opened Labeler
  import opened Status

  /** Labels the bars and reports the status and colour of the last bar,
      together with the last close price. */
  method Analyse(close: seq<real>, macd: seq<real>, signal: seq<real>)
    returns (flags: seq<Flag>, buy: seq<Option<real>>, sell: seq<Option<real>>,
             status: Recommendation, colour: Colour, lastClose: real)
    requires Aligned(close, macd, signal) && |close| > 0
    ensures Frame(flags, buy, sell) == Scan(close, macd, signal, |close|)
    ensures status != Indefinido && colour != Black
    ensures status == Compra <==> 1 < |close| && macd[|close| - 1] > signal[|close| - 1]
    ensures status == Venda <==> 1 < |close| && macd[|close| - 1] < signal[|close| - 1]
    ensures status == Manter <==> |close| == 1 || macd[|close| - 1] == signal[|close| - 1]
    ensures (status, colour) == Intended(flags[|close| - 1])
    ensures lastClose == close[|close| - 1]
  {
    flags, buy, sell := LabelBars(close, macd, signal);
    var rc := FinalStatus(flags);
    status, colour := rc.0, rc.1;
    lastClose := close[|close| - 1];
  }

  /** A one-bar series always ends with MANTER in yellow, whatever its MACD
      and signal values. */
  lemma SingleBarHolds(close: seq<real>, macd: seq<real>, signal: seq<real>)
    requires Aligned(close, macd, signal) && |close| == 1
    ensures FinalStatus(Scan(close, macd, signal, 1).flags) == (Manter, Yellow)
  {
  }
}

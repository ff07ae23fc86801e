/** The final recommendation: the last bar's flag is looked up in a
    code-to-status table (unknown codes fall back to INDEFINIDO), and the
    status text is looked up in a status-to-colour table (unknown texts fall
    back to black). */
module Status {
  import opened Labeler

  datatype Recommendation = Venda | Compra | Manter | Indefinido

  datatype Colour = Red | Green | Yellow | Black

  /** The text shown for a recommendation. */
  function Text(r: Recommendation): (t: string)
    ensures t == "VENDA" <==> r == Venda
    ensures t == "COMPRA" <==> r == Compra
    ensures t == "MANTER" <==> r == Manter
    ensures t == "INDEFINIDO" <==> r == Indefinido
  {
    match r
    case Venda => "VENDA"
    case Compra => "COMPRA"
    case Manter => "MANTER"
    case Indefinido => "INDEFINIDO"
  }

  /** Looks a flag-column string up in the status table. */
  function StatusOfCode(code: string): (r: Recommendation)
    ensures r == Venda <==> code == "V"
    ensures r == Compra <==> code == "C"
    ensures r == Manter <==> code == ""
    ensures r == Indefinido <==> ParseCode(code).None?
  {
    if code == "V" then Venda
    else if code == "C" then Compra
    else if code == "" then Manter
    else Indefinido
  }

  /** Looks a status text up in the colour table. */
  function ColourOfText(text: string): (c: Colour)
    ensures c == Red <==> text == "VENDA"
    ensures c == Green <==> text == "COMPRA"
    ensures c == Yellow <==> text == "MANTER"
    ensures c == Black <==> text !in {"VENDA", "COMPRA", "MANTER"}
  {
    if text == "VENDA" then Red
    else if text == "COMPRA" then Green
    else if text == "MANTER" then Yellow
    else Black
  }

  /** The intended pairing of flags with recommendations and colours. */
  function Intended(f: Flag): (Recommendation, Colour)
  {
    match f
    case Buy => (Compra, Green)
    case Sell => (Venda, Red)
    case Hold => (Manter, Yellow)
  }

  /** The colour of a recommendation's text: sell is red, buy green, hold
      yellow, and only INDEFINIDO is black. */
  lemma ColourOfStatus(r: Recommendation)
    ensures ColourOfText(Text(r)) == Black <==> r == Indefinido
    ensures r == Venda ==> ColourOfText(Text(r)) == Red
    ensures r == Compra ==> ColourOfText(Text(r)) == Green
    ensures r == Manter ==> ColourOfText(Text(r)) == Yellow
  {
  }

  /** The status and colour shown for a non-empty flag column: both are read
      from the last flag only. */
  function FinalStatus(flags: seq<Flag>): (rc: (Recommendation, Colour))
    requires |flags| > 0
    ensures rc == Intended(flags[|flags| - 1])
    ensures rc.0 != Indefinido && rc.1 != Black
  {
    var status := StatusOfCode(Code(flags[|flags| - 1]));
    (status, ColourOfText(Text(status)))
  }
}

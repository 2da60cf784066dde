/**
 The values the copy-trading engine passes around: trader positions, the
 OPEN / CHANGE / CLOSE updates derived from them, and the position a bot holds.
 Binance's floats and the decimal library's numbers are modelled as reals.
 */
module Types {

  datatype Option<+T> = None | Some(value: T)

  /** The side strings of the source. `NoSide` is what the exchange reports for a flat
      symbol, `Unset` is the empty string of Go's zero value. */
  datatype Side = Buy | Sell | NoSide | Unset

  datatype TraderPosition = TraderPosition(
    symbol: string, side: Side, qty: real, timestamp: real,
    entryPrice: real, pnl: real, markPrice: real)

  datatype UpdateKind = OpenLS | CloseLS | ChangeLS

  datatype Update = Update(
    kind: UpdateKind, symbol: string, side: Side, binQty: real, timestamp: real,
    oldBinQty: real, entry: real, pnl: real, markPrice: real)
  {
    predicate IsIncrease() {
      match kind
      case ChangeLS => binQty > oldBinQty
      case CloseLS => false
      case OpenLS => true
    }
  }

  datatype BotPosition = BotPosition(
    symbol: string, side: Side, qty: real, entry: real, leverage: real, tp: real, sl: real)

  /** Go's zero value, which reading a missing map key yields. */
  const ZERO_POSITION := BotPosition("", Unset, 0.0, 0.0, 0.0, 0.0, 0.0)

  function Abs(x: real): real { if x < 0.0 then -x else x }

  function GetSide(qty: real): Side {
    if qty > 0.0 then Buy else if qty < 0.0 then Sell else Buy
  }

  function NewPosition(qty: real, timestamp: real, coin: string, entry: real, pnl: real, mark: real): TraderPosition {
    TraderPosition(coin, GetSide(qty), qty, timestamp, entry, pnl, mark)
  }

  function SwitchSide(side: Side): Side {
    if side == Buy then Sell else Buy
  }

  predicate IsTradeSide(side: Side) { side == Buy || side == Sell }

  function SideName(side: Side): string {
    match side
    case Buy => "Buy"
    case Sell => "Sell"
    case NoSide => "None"
    case Unset => ""
  }

  /** Key of the map of positions a bot tracks. */
  function PosHash(symbol: string, side: Side): string {
    SideName(side) + symbol
  }

  /** The side a bot trades when it mirrors, or inverts, the trader. */
  function EffectiveSide(side: Side, inverse: bool): Side {
    if inverse then SwitchSide(side) else side
  }

  /** Side and symbol can be read back from the key, as long as the side was reported. */
  lemma PosHashInjective(symbol1: string, side1: Side, symbol2: string, side2: Side)
    requires side1 != Unset && side2 != Unset
    ensures PosHash(symbol1, side1) == PosHash(symbol2, side2) <==> symbol1 == symbol2 && side1 == side2
  {
    var h1, h2 := PosHash(symbol1, side1), PosHash(symbol2, side2);
    assert h1[0] == SideName(side1)[0] && h2[0] == SideName(side2)[0];
    if h1 == h2 {
      assert side1 == side2;
      assert h1[|SideName(side1)|..] == symbol1 && h2[|SideName(side2)|..] == symbol2;
    }
  }

  lemma EffectiveSideInjective(side1: Side, side2: Side, inverse: bool)
    requires IsTradeSide(side1) && IsTradeSide(side2)
    ensures IsTradeSide(EffectiveSide(side1, inverse))
    ensures EffectiveSide(side1, inverse) == EffectiveSide(side2, inverse) <==> side1 == side2
  {
  }
}

/**
  The presentation decisions of the transaction detail page: the label of a type code, the
  styling of a status, the capitalised status, the fee-token label, the merchant-paid-fee
  notice, the `Pending`/`N/A` fallbacks for missing values, and the raw-data toggle.
  Rendering itself (markup, animation, number and date formatting) is not modelled; each
  function returns what the page decides to show.
*/
module TransactionDetails {
  import opened Wrappers
  import Js
  import Api

  // ---------------------------------------------------------------------------
  // Transaction type
  // ---------------------------------------------------------------------------

  const UnknownType: string := "Unknown"

  /** The lookup table of type labels, or `Unknown` for a code the table does not hold. */
  function TypeLabel(code: int): (caption: string)
    ensures caption == UnknownType <==> !(0 <= code <= 4)
  {
    match code
    case 0 => "Transfer"
    case 1 => "Deposit"
    case 2 => "Withdrawal"
    case 3 => "Name Registration"
    case 4 => "Staking"
    case _ => UnknownType
  }

  /** The code a label stands for, if it stands for one. */
  function TypeCode(caption: string): (code: Option<int>)
    ensures code.Some? ==> 0 <= code.value <= 4
  {
    if caption == "Transfer" then Some(0)
    else if caption == "Deposit" then Some(1)
    else if caption == "Withdrawal" then Some(2)
    else if caption == "Name Registration" then Some(3)
    else if caption == "Staking" then Some(4)
    else None
  }

  /** Each known code is shown by a label of its own; every other code reads as `Unknown`. */
  lemma {:induction false} TypeLabelRoundTrip(code: int)
    ensures TypeCode(TypeLabel(code)) == (if 0 <= code <= 4 then Some(code) else None)
  {
    if !(0 <= code <= 4) {
      assert TypeLabel(code) == UnknownType;
    }
  }

  /** Two known codes never share a label. */
  lemma TypeLabelInjective(a: int, b: int)
    requires 0 <= a <= 4 && 0 <= b <= 4
    requires TypeLabel(a) == TypeLabel(b)
    ensures a == b
  {
    TypeLabelRoundTrip(a);
    TypeLabelRoundTrip(b);
  }

  // ---------------------------------------------------------------------------
  // Status styling
  // ---------------------------------------------------------------------------

  /** The colour family a status is shown in. */
  datatype Tone = Green | Red | Yellow | Gray

  /** The partition both styling functions follow: three known statuses and the rest. */
  function StatusTone(status: string): Tone {
    if status == "confirmed" then Green
    else if status == "failed" then Red
    else if status == "pending" then Yellow
    else Gray
  }

  /** The badge classes of a tone: text at shade 600 on a shade-100 background. */
  function BadgeClass(t: Tone): string {
    match t
    case Green => "text-green-600 bg-green-100 dark:bg-green-900/20"
    case Red => "text-red-600 bg-red-100 dark:bg-red-900/20"
    case Yellow => "text-yellow-600 bg-yellow-100 dark:bg-yellow-900/20"
    case Gray => "text-gray-600 bg-gray-100 dark:bg-gray-900/20"
  }

  /** The icon classes of a tone: a 5-unit glyph at shade 500. */
  function GlyphClass(t: Tone): string {
    match t
    case Green => "w-5 h-5 text-green-500"
    case Red => "w-5 h-5 text-red-500"
    case Yellow => "w-5 h-5 text-yellow-500"
    case Gray => "w-5 h-5 text-gray-500"
  }

  datatype Glyph = CheckCircle | XCircle | Clock
  datatype Icon = Icon(glyph: Glyph, className: string)

  /** `getStatusColor`: the badge classes of the status's tone, gray for every unlisted status. */
  function StatusColor(status: string): (classes: string)
    ensures classes == BadgeClass(Gray) <==>
      status != "confirmed" && status != "failed" && status != "pending"
  {
    BadgeLength(StatusTone(status));
    BadgeLength(Gray);
    BadgeClass(StatusTone(status))
  }

  /**
    `getStatusIcon`: a check for confirmed, a cross for failed, a clock otherwise, in the
    icon classes of the status's tone.
  */
  function StatusIcon(status: string): (icon: Icon)
    ensures icon.className == GlyphClass(StatusTone(status))
    ensures icon.glyph == CheckCircle <==> status == "confirmed"
    ensures icon.glyph == XCircle <==> status == "failed"
  {
    var glyph := if status == "confirmed" then CheckCircle
      else if status == "failed" then XCircle
      else Clock;
    Icon(glyph, GlyphClass(StatusTone(status)))
  }

  /** The class strings each listed status is drawn with. */
  lemma KnownStatusStyles()
    ensures StatusColor("confirmed") == "text-green-600 bg-green-100 dark:bg-green-900/20"
    ensures StatusColor("failed") == "text-red-600 bg-red-100 dark:bg-red-900/20"
    ensures StatusColor("pending") == "text-yellow-600 bg-yellow-100 dark:bg-yellow-900/20"
    ensures StatusIcon("confirmed") == Icon(CheckCircle, "w-5 h-5 text-green-500")
    ensures StatusIcon("failed") == Icon(XCircle, "w-5 h-5 text-red-500")
    ensures StatusIcon("pending") == Icon(Clock, "w-5 h-5 text-yellow-500")
  {
  }

  /** The length of the colour name: `green`, `red`, `yellow` and `gray` all differ in length. */
  function HueLength(t: Tone): nat {
    match t
    case Green => 5
    case Red => 3
    case Yellow => 6
    case Gray => 4
  }

  /** The badge names its colour three times around 33 fixed characters. */
  lemma BadgeLength(t: Tone)
    ensures |BadgeClass(t)| == 33 + 3 * HueLength(t)
  {
  }

  /** No two tones share a badge. */
  lemma BadgeClassInjective(a: Tone, b: Tone)
    requires BadgeClass(a) == BadgeClass(b)
    ensures a == b
  {
    BadgeLength(a);
    BadgeLength(b);
  }

  /** The icon classes name the colour once around 17 fixed characters. */
  lemma GlyphLength(t: Tone)
    ensures |GlyphClass(t)| == 17 + HueLength(t)
  {
  }

  /** No two tones share icon classes. */
  lemma GlyphClassInjective(a: Tone, b: Tone)
    requires GlyphClass(a) == GlyphClass(b)
    ensures a == b
  {
    GlyphLength(a);
    GlyphLength(b);
  }

  /**
    The badge and the icon partition statuses identically: two statuses get the same badge
    exactly when they get the same icon, exactly when they have the same tone.
  */
  lemma {:induction false} ColorAndIconAgree(s1: string, s2: string)
    ensures StatusColor(s1) == StatusColor(s2) <==> StatusTone(s1) == StatusTone(s2)
    ensures StatusIcon(s1) == StatusIcon(s2) <==> StatusTone(s1) == StatusTone(s2)
  {
    if StatusColor(s1) == StatusColor(s2) {
      BadgeClassInjective(StatusTone(s1), StatusTone(s2));
    }
    if StatusIcon(s1) == StatusIcon(s2) {
      GlyphClassInjective(StatusTone(s1), StatusTone(s2));
    }
    if StatusTone(s1) == StatusTone(s2) {
      assert StatusIcon(s1).glyph == StatusIcon(s2).glyph;
    }
  }

  /** Every status outside the three known ones falls to the gray default. */
  lemma UnlistedStatusIsGray(status: string)
    requires status !in {"confirmed", "failed", "pending"}
    ensures StatusColor(status) == "text-gray-600 bg-gray-100 dark:bg-gray-900/20"
    ensures StatusIcon(status) == Icon(Clock, "w-5 h-5 text-gray-500")
  {
  }

  /**
    The status as the badge prints it: its first character upper-cased and the rest as is
    (the empty status stays empty).
  */
  function DisplayStatus(status: string): (shown: string)
    ensures |shown| == |status|
    ensures status != [] ==> shown[0] == Js.UpperAscii(status[0]) && shown[1..] == status[1..]
  {
    if status == [] then [] else [Js.UpperAscii(status[0])] + status[1..]
  }

  /** The badge text keeps the status apart: lower-casing its first letter gives the status back. */
  lemma {:induction false} DisplayStatusRecoverable(status: string)
    requires status != [] && 'a' <= status[0] <= 'z'
    ensures var shown := DisplayStatus(status);
      [Js.LowerAscii(shown[0])] + shown[1..] == status
  {
    var shown := DisplayStatus(status);
    assert Js.LowerAscii(shown[0]) == status[0];
    assert [status[0]] + status[1..] == status;
  }

  lemma DisplayStatusIdempotent(status: string)
    ensures DisplayStatus(DisplayStatus(status)) == DisplayStatus(status)
  {
  }

  lemma KnownStatusesDisplayed()
    ensures DisplayStatus("confirmed") == "Confirmed"
    ensures DisplayStatus("failed") == "Failed"
    ensures DisplayStatus("pending") == "Pending"
  {
    assert "confirmed"[1..] == "onfirmed";
    assert "failed"[1..] == "ailed";
    assert "pending"[1..] == "ending";
  }

  // ---------------------------------------------------------------------------
  // Fees
  // ---------------------------------------------------------------------------

  /** The all-zero address that stands for the native token. */
  const ZeroAddress: string := "0x0000000000000000000000000000000000000000"

  /** The fee token: `ETH` exactly for the zero address (compared verbatim), `USDC` for anything else. */
  function FeeTokenLabel(feeToken: string): (caption: string)
    ensures caption == "ETH" || caption == "USDC"
    ensures caption == "ETH" <==> feeToken == ZeroAddress
  {
    if feeToken == ZeroAddress then "ETH" else "USDC"
  }

  /** The comparison is verbatim: the zero address written with `0X` is not recognised. */
  lemma FeeTokenIsCaseSensitive()
    ensures FeeTokenLabel("0X0000000000000000000000000000000000000000") == "USDC"
  {
    assert "0X0000000000000000000000000000000000000000"[1] != ZeroAddress[1];
  }

  /** What the fee panel decides: where the payer link goes, the token label and the notice. */
  datatype FeePanel = FeePanel(payerLink: string, tokenLabel: string, merchantPaid: bool)

  /**
    The fee panel of a transaction: the payer links to its address page, and the
    merchant-paid notice is shown exactly when someone other than the sender paid.
  */
  function FeeInformation(tx: Api.Transaction): (p: FeePanel)
    ensures p.payerLink == "/address/" + tx.feePayer
    ensures p.tokenLabel == FeeTokenLabel(tx.feeToken)
    ensures p.merchantPaid <==> tx.feePayer != tx.from
  {
    FeePanel("/address/" + tx.feePayer, FeeTokenLabel(tx.feeToken), tx.feePayer != tx.from)
  }

  /** A transaction whose sender paid its own fee shows no notice, and its payer link is the sender's. */
  lemma SelfPaidHasNoNotice(tx: Api.Transaction)
    requires tx.feePayer == tx.from
    ensures !FeeInformation(tx).merchantPaid
    ensures FeeInformation(tx).payerLink == "/address/" + tx.from
  {
  }

  // ---------------------------------------------------------------------------
  // Fallbacks for missing values
  // ---------------------------------------------------------------------------

  /** A number is truthy unless it is missing or zero. */
  predicate Truthy(n: Option<int>) {
    n.Some? && n.value != 0
  }

  /**
    The block cell: `Pending` without a link, followed by whatever text the guarded link
    expression leaves behind, or the block number with a link to its page.
  */
  datatype BlockCell = PendingBlock(stray: string) | Mined(number: int, link: string)

  /**
    The block cell as the page writes it. `{blockNumber && <a …>}` evaluates to the falsy
    number itself, and React renders a number as text, so block 0 leaves a `0` after
    `Pending`; a missing number renders nothing.
  */
  function BlockNumberCell(blockNumber: Option<int>): (cell: BlockCell)
    ensures cell.PendingBlock? <==> !Truthy(blockNumber)
    ensures cell.PendingBlock? ==> (cell.stray == "" <==> blockNumber.None?)
    ensures cell.PendingBlock? && blockNumber.Some? ==>
      cell.stray == Js.IntToString(blockNumber.value)
    ensures cell.Mined? ==> cell.number == blockNumber.value
    ensures cell.Mined? ==> |cell.link| > 7 && cell.link[..7] == "/block/"
    ensures cell.Mined? && cell.number > 0 ==>
      Js.IsDigits(cell.link[7..]) && Js.NumeralValue(cell.link[7..], 10) == cell.number
  {
    if Truthy(blockNumber) then MinedCell(blockNumber.value)
    else if blockNumber.Some? then
      assert Js.IntToString(0) == "0" by { assert Js.ToRadix(0, 10) == "0"; }
      PendingBlock(Js.IntToString(blockNumber.value))
    else PendingBlock("")
  }

  /** The cell of a mined block: its number and the link to `/block/` and that number. */
  function MinedCell(n: int): (cell: BlockCell)
    ensures cell.Mined? && cell.number == n
    ensures |cell.link| > 7 && cell.link[..7] == "/block/"
    ensures n > 0 ==> Js.IsDigits(cell.link[7..]) && Js.NumeralValue(cell.link[7..], 10) == n
  {
    var link := "/block/" + Js.IntToString(n);
    assert link[7..] == Js.IntToString(n);
    Mined(n, link)
  }

  /**
    The block cell the page evidently means to show, with the link guarded by a boolean:
    every falsy block number shows `Pending` alone, and a truthy one the same cell as the
    page shows.
  */
  function IntendedBlockNumberCell(blockNumber: Option<int>): (cell: BlockCell)
    ensures cell.PendingBlock? <==> !Truthy(blockNumber)
    ensures cell.PendingBlock? ==> cell.stray == ""
    ensures Truthy(blockNumber) ==> cell == BlockNumberCell(blockNumber)
  {
    if Truthy(blockNumber) then MinedCell(blockNumber.value) else PendingBlock("")
  }

  /**
    Block 0 is falsy, so the genesis block reads as `Pending` without a link, but the page
    leaves a stray `0` beside it that a missing block number does not; the intended cell
    shows both alike.
  */
  lemma GenesisBlockShowsStrayZero()
    ensures BlockNumberCell(Some(0)) == PendingBlock("0")
    ensures BlockNumberCell(None) == PendingBlock("")
    ensures BlockNumberCell(Some(0)) != BlockNumberCell(None)
    ensures IntendedBlockNumberCell(Some(0)) == IntendedBlockNumberCell(None) == PendingBlock("")
  {
    assert Js.ToRadix(0, 10) == "0";
  }

  /** The time cell: `Pending`, or the moment in milliseconds handed to the relative-time formatter. */
  datatype TimeCell = PendingTime | At(millis: int)

  function TimestampCell(timestamp: Option<int>): (cell: TimeCell)
    ensures cell.PendingTime? <==> !Truthy(timestamp)
    ensures cell.At? ==> cell.millis == timestamp.value * 1000 && cell.millis != 0
  {
    if Truthy(timestamp) then At(timestamp.value * 1000) else PendingTime
  }

  /** The gas cell: `N/A` when the gas is missing or the empty string, the amount otherwise. */
  datatype GasCell = NotAvailable | Used(amount: string)

  function GasUsedCell(gasUsed: Option<string>): (cell: GasCell)
    ensures cell.NotAvailable? <==> gasUsed.None? || gasUsed.value == ""
    ensures cell.Used? ==> cell.amount == gasUsed.value
  {
    if gasUsed.Some? && gasUsed.value != "" then Used(gasUsed.value) else NotAvailable
  }

  /**
    The timestamp falls back alike for a missing value and for 0, but the block number does
    not: block 0 leaves its stray `0` where a missing number leaves nothing.
  */
  lemma FalsyFallbacks(tx: Api.Transaction)
    requires tx.blockNumber == Some(0) && tx.timestamp == None
    ensures TimestampCell(tx.timestamp) == TimestampCell(Some(0)) == PendingTime
    ensures BlockNumberCell(tx.blockNumber) != BlockNumberCell(None)
    ensures IntendedBlockNumberCell(tx.blockNumber) == IntendedBlockNumberCell(None)
  {
    GenesisBlockShowsStrayZero();
  }

  // ---------------------------------------------------------------------------
  // Raw data
  // ---------------------------------------------------------------------------

  datatype EyeGlyph = Eye | EyeOff

  /** The page's one piece of state: whether the raw JSON of the transaction is shown. */
  class RawDataPanel {
    var showRawData: bool

    /** The panel starts collapsed. */
    constructor()
      ensures !showRawData
    {
      showRawData := false;
    }

    /** A click on the Show/Hide button. */
    method Toggle()
      modifies this
      ensures showRawData == !old(showRawData)
    {
      showRawData := !showRawData;
    }

    /** The raw JSON is rendered exactly when the panel is open. */
    predicate RendersRawJson()
      reads this
    {
      showRawData
    }

    /** The button offers the action a click performs: `Hide` when open, `Show` when closed. */
    function ButtonLabel(): (caption: string)
      reads this
      ensures |caption| == 13 && caption[4..] == " Raw Data"
      ensures caption[..4] == "Hide" <==> RendersRawJson()
      ensures caption[..4] == "Show" <==> !RendersRawJson()
    {
      (if showRawData then "Hide" else "Show") + " Raw Data"
    }

    /** The glyph beside the label: a crossed eye when open, an eye when closed. */
    function ButtonGlyph(): (glyph: EyeGlyph)
      reads this
      ensures glyph == EyeOff <==> RendersRawJson()
    {
      if showRawData then EyeOff else Eye
    }
  }

  /** Two clicks restore the panel, whatever its state. */
  method ToggleTwice(panel: RawDataPanel)
    modifies panel
    ensures panel.showRawData == old(panel.showRawData)
    ensures panel.ButtonLabel() == old(panel.ButtonLabel())
  {
    panel.Toggle();
    panel.Toggle();
  }

  /** A click flips the label between `Show` and `Hide`. */
  method ClickChangesLabel(panel: RawDataPanel)
    modifies panel
    ensures panel.ButtonLabel() != old(panel.ButtonLabel())
    ensures panel.RendersRawJson() != old(panel.RendersRawJson())
  {
    panel.Toggle();
  }
}

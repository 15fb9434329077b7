/**
 * The CTCSS/DCS tone families the tone scan steps through. The tone-table
 * helpers of the firmware (codeplugGetCSSType, cssGetToneIndex,
 * cssGetToneFromIndex, cssIncrement, cssDecrement) are not part of this
 * model; they are modelled here on three tone tables given as values: a
 * tone belongs to the family whose table holds it, and stepping moves to
 * the neighbouring table entry, wrapping within the family or moving on to
 * the next family.
 */
module Tones {
  import opened Codeplug

  /** CodeplugCSSTypes_t. As the tone-scan selection, CssNone means all families. */
  datatype CssType = Ctcss | Dcs | DcsInverted | CssNone

  /** Time between two tones for the lowest CTCSS tone; higher tones take less. */
  const SCAN_TONE_INTERVAL: int := 200

  datatype ToneTables = ToneTables(ctcss: seq<int>, dcs: seq<int>, dcsInverted: seq<int>)

  function Table(t: ToneTables, ty: CssType): seq<int>
  {
    match ty
    case Ctcss => t.ctcss
    case Dcs => t.dcs
    case DcsInverted => t.dcsInverted
    case CssNone => []
  }

  /** Every family has tones, none is the "no tone" code, and a tone belongs to one family at most. */
  ghost predicate TablesValid(t: ToneTables)
  {
    |t.ctcss| > 0 && |t.dcs| > 0 && |t.dcsInverted| > 0 &&
    CODEPLUG_CSS_TONE_NONE !in t.ctcss && CODEPLUG_CSS_TONE_NONE !in t.dcs && CODEPLUG_CSS_TONE_NONE !in t.dcsInverted &&
    (forall x :: x in t.ctcss ==> x !in t.dcs && x !in t.dcsInverted) &&
    (forall x :: x in t.dcs ==> x !in t.dcsInverted)
  }

  /** codeplugGetCSSType */
  function TypeOf(t: ToneTables, tone: int): (r: CssType)
    ensures r != CssNone ==> tone in Table(t, r)
    ensures r == CssNone <==> tone !in t.ctcss && tone !in t.dcs && tone !in t.dcsInverted
    ensures TablesValid(t) ==> (tone == CODEPLUG_CSS_TONE_NONE ==> r == CssNone)
  {
    if tone in t.ctcss then Ctcss
    else if tone in t.dcs then Dcs
    else if tone in t.dcsInverted then DcsInverted
    else CssNone
  }

  /** In valid tables, a tone of a family is classified as that family. */
  lemma TypeOfTableEntry(t: ToneTables, ty: CssType, i: nat)
    requires TablesValid(t) && ty != CssNone && i < |Table(t, ty)|
    ensures TypeOf(t, Table(t, ty)[i]) == ty
  {
  }

  /** cssGetToneIndex: the first position of the tone (0 when absent). */
  function IndexOf(s: seq<int>, tone: int): (r: nat)
    ensures tone in s ==> r < |s| && s[r] == tone
    ensures tone in s ==> forall j :: 0 <= j < r ==> s[j] != tone
  {
    if |s| == 0 || s[0] == tone then 0 else 1 + IndexOf(s[1..], tone)
  }

  /** The family cssIncrement moves on to after the last tone of one. */
  function NextType(ty: CssType): CssType
  {
    match ty
    case Ctcss => Dcs
    case Dcs => DcsInverted
    case DcsInverted => Ctcss
    case CssNone => Ctcss
  }

  /** The family cssDecrement moves back to before the first tone of one; the inverse of NextType. */
  function PrevType(ty: CssType): (r: CssType)
    ensures ty != CssNone ==> NextType(r) == ty
  {
    match ty
    case Ctcss => DcsInverted
    case Dcs => Ctcss
    case DcsInverted => Dcs
    case CssNone => DcsInverted
  }

  /** The tone-scan position: scanToneIndex within the family toneScanType. */
  datatype Cursor = Cursor(index: nat, ty: CssType)

  predicate CursorValid(t: ToneTables, c: Cursor)
  {
    c.ty != CssNone && c.index < |Table(t, c.ty)|
  }

  /** The tone at a position (cssGetToneFromIndex). */
  function ToneAt(t: ToneTables, c: Cursor): int
    requires CursorValid(t, c)
  {
    Table(t, c.ty)[c.index]
  }

  /**
   * cssIncrement with wrap-around: the next tone of the family; after the
   * last one, the first tone of the same family when stay is set, else the
   * first tone of the next family.
   */
  function Increment(t: ToneTables, c: Cursor, stay: bool): (r: Cursor)
    requires TablesValid(t) && CursorValid(t, c)
    ensures CursorValid(t, r)
    ensures stay ==> r.ty == c.ty
    ensures r.ty == c.ty ==> r.index == (c.index + 1) % |Table(t, c.ty)|
  {
    if c.index + 1 < |Table(t, c.ty)| then c.(index := c.index + 1)
    else if stay then c.(index := 0)
    else Cursor(0, NextType(c.ty))
  }

  /**
   * cssDecrement with wrap-around: the previous tone of the family; before
   * the first one, the last tone of the same family when stay is set, else
   * the last tone of the previous family.
   */
  function Decrement(t: ToneTables, c: Cursor, stay: bool): (r: Cursor)
    requires TablesValid(t) && CursorValid(t, c)
    ensures CursorValid(t, r)
    ensures stay ==> r.ty == c.ty
    ensures r.ty == c.ty ==> (r.index + 1) % |Table(t, c.ty)| == c.index
  {
    if c.index > 0 then c.(index := c.index - 1)
    else if stay then c.(index := |Table(t, c.ty)| - 1)
    else Cursor(|Table(t, PrevType(c.ty))| - 1, PrevType(c.ty))
  }

  /** Reversing the tone-scan direction retraces the tones: each step undoes the other. */
  lemma {:induction false} StepsAreInverse(t: ToneTables, c: Cursor, stay: bool)
    requires TablesValid(t) && CursorValid(t, c)
    ensures Decrement(t, Increment(t, c, stay), stay) == c
    ensures Increment(t, Decrement(t, c, stay), stay) == c
  {
    var i := Increment(t, c, stay);
    if c.index + 1 >= |Table(t, c.ty)| && !stay {
      assert i == Cursor(0, NextType(c.ty));
      assert PrevType(NextType(c.ty)) == c.ty by {
        match c.ty
        case Ctcss =>
        case Dcs =>
        case DcsInverted =>
      }
    }
    var d := Decrement(t, c, stay);
    if c.index == 0 && !stay {
      assert NextType(PrevType(c.ty)) == c.ty;
    }
  }

  /** The time a tone is listened to: shorter for higher CTCSS tones. */
  function ToneInterval(c: Cursor): (r: int)
    ensures r <= SCAN_TONE_INTERVAL
    ensures c.ty != Ctcss ==> r == SCAN_TONE_INTERVAL
    ensures c.ty == Ctcss && c.index < SCAN_TONE_INTERVAL / 2 ==> r > 0
  {
    if c.ty == Ctcss then SCAN_TONE_INTERVAL - c.index * 2 else SCAN_TONE_INTERVAL
  }

  /**
   * Where the tone scan starts (uiVFOMode.c, VFO_SCREEN_QUICK_MENU_TONE_SCAN),
   * given the receive tone and the family chosen for the scan. With no
   * tone, or a tone of another family than the chosen one, it starts at the
   * first tone of the scanned family (CTCSS when all are scanned);
   * otherwise at the tone after the current one.
   */
  function ToneScanStart(t: ToneTables, rxTone: int, scanCss: CssType): (r: Cursor)
    requires TablesValid(t)
    ensures CursorValid(t, r)
    ensures TypeOf(t, rxTone) == CssNone ==> r == Cursor(0, if scanCss == CssNone then Ctcss else scanCss)
    ensures TypeOf(t, rxTone) != CssNone && scanCss != CssNone && scanCss != TypeOf(t, rxTone) ==> r == Cursor(0, scanCss)
    ensures TypeOf(t, rxTone) != CssNone && (scanCss == CssNone || scanCss == TypeOf(t, rxTone)) ==>
      var ty := TypeOf(t, rxTone);
      r == Increment(t, Cursor(IndexOf(Table(t, ty), rxTone), ty), scanCss != CssNone)
  {
    var currentType := TypeOf(t, rxTone);
    var differ := currentType != CssNone && scanCss != CssNone && scanCss != currentType;
    var scanType := if scanCss != CssNone then scanCss else currentType;
    if currentType == CssNone || differ then
      Cursor(0, if scanType == CssNone then Ctcss else scanType)
    else
      Increment(t, Cursor(IndexOf(Table(t, scanType), rxTone), scanType), scanCss != CssNone)
  }

  /** A scan started on a tone of the scanned family begins just after it: one step back is that tone. */
  lemma ToneScanStartsAfterCurrent(t: ToneTables, rxTone: int, scanCss: CssType)
    requires TablesValid(t)
    requires TypeOf(t, rxTone) != CssNone && (scanCss == CssNone || scanCss == TypeOf(t, rxTone))
    ensures ToneAt(t, Decrement(t, ToneScanStart(t, rxTone, scanCss), scanCss != CssNone)) == rxTone
  {
    var ty := TypeOf(t, rxTone);
    var c := Cursor(IndexOf(Table(t, ty), rxTone), ty);
    StepsAreInverse(t, c, scanCss != CssNone);
  }
}

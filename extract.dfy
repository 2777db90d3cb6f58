/**
 * `getValuesFromHtml` of main.py. The page's inline script blocks are
 * given as the sequence of their `.string` values (absent when a block has
 * no single text child). Each block is searched for the three assignments
 * `var webdata_… = "<text>"` with the pattern `var NAME = "([^"]+)"`; the
 * first block, in document order, in which all three are found supplies
 * the sample. The number conversions are parameters that may fail.
 */
module Extract {
  import opened Wrappers

  const QUOTE: char := '"'
  const NOW_POWER := "var webdata_now_p = \""
  const TODAY_ENERGY := "var webdata_today_e = \""
  const TOTAL_ENERGY := "var webdata_total_e = \""

  /** One telemetry sample: watts, and watt-hours today and in total. */
  datatype Sample = Sample(currentPower: int, todayEnergy: int, totalEnergy: int)

  /**
   * `None`, the three converted values, or the exception a conversion raised
   * on `text` (`ValueError` for text that is not a number, `OverflowError`
   * when `float` gives an infinity that `int` cannot take).
   */
  datatype Extraction = NoData | Data(sample: Sample) | ConversionError(text: string)

  /**
   * `int(text)` and `int(float(text) * 1000)`, as functions of the
   * captured text that fail where Python raises.
   */
  datatype Converters = Converters(parseInt: string -> Option<int>, kilowattHours: string -> Option<int>)

  /** A match of `re.search`: where it starts and what group 1 captured. */
  datatype Capture = Capture(start: nat, text: string)

  /** The three captured texts of one block. */
  datatype Values = Values(nowPower: string, todayEnergy: string, totalEnergy: string)

  /** The pattern `lit` + `([^"]+)` + `"` matches `s` at `p`, capturing `v`. */
  ghost predicate Matches(s: string, lit: string, p: nat, v: string) {
    && p + |lit| + |v| < |s|
    && s[p..p + |lit|] == lit
    && |v| > 0
    && s[p + |lit|..p + |lit| + |v|] == v
    && (forall i :: 0 <= i < |v| ==> v[i] != QUOTE)
    && s[p + |lit| + |v|] == QUOTE
  }

  /** `v` is group 1 of the leftmost match of the pattern in `s`. */
  ghost predicate LeftmostCapture(s: string, lit: string, v: string) {
    exists p :: Matches(s, lit, p, v) && forall q, w :: q < p ==> !Matches(s, lit, q, w)
  }

  /** The pattern matches somewhere in `s`. */
  ghost predicate Assigns(s: string, lit: string) {
    exists p, v :: Matches(s, lit, p, v)
  }

  /** The length of the run of non-quote characters of `s` from `i` (the greedy `[^"]+`). */
  function RunLength(s: string, i: nat): (n: nat)
    requires i <= |s|
    decreases |s| - i
    ensures i + n <= |s|
    ensures forall j :: i <= j < i + n ==> s[j] != QUOTE
    ensures i + n < |s| ==> s[i + n] == QUOTE
  {
    if i == |s| || s[i] == QUOTE then 0 else 1 + RunLength(s, i + 1)
  }

  /** At a position where the literal occurs, the pattern matches exactly when the run after it is non-empty and ends at a quote. */
  lemma MatchAfterLiteral(s: string, lit: string, p: nat)
    requires p + |lit| <= |s| && s[p..p + |lit|] == lit
    ensures var i, n := p + |lit|, RunLength(s, p + |lit|);
      (0 < n && i + n < |s|) ==> Matches(s, lit, p, s[i..i + n])
    ensures var i, n := p + |lit|, RunLength(s, p + |lit|);
      !(0 < n && i + n < |s|) ==> forall v :: !Matches(s, lit, p, v)
  {
  }

  /** Whether the pattern matches at `p` (backtracking cannot help: the run must end at a quote). */
  function MatchAt(s: string, lit: string, p: nat): (r: Option<string>)
    ensures r.Some? ==> Matches(s, lit, p, r.value)
    ensures r.None? ==> forall v :: !Matches(s, lit, p, v)
  {
    if p + |lit| <= |s| && s[p..p + |lit|] == lit then
      var n := RunLength(s, p + |lit|);
      MatchAfterLiteral(s, lit, p);
      if 0 < n && p + |lit| + n < |s| then Some(s[p + |lit|..p + |lit| + n]) else None
    else None
  }

  /** `re.search` from position `p` on: the first position at which the pattern matches. */
  function SearchFrom(s: string, lit: string, p: nat): (r: Option<Capture>)
    decreases |s| + 1 - p
    ensures r.Some? ==> p <= r.value.start && Matches(s, lit, r.value.start, r.value.text)
    ensures r.Some? ==> forall q, w :: p <= q < r.value.start ==> !Matches(s, lit, q, w)
    ensures r.None? ==> forall q, w :: p <= q ==> !Matches(s, lit, q, w)
  {
    if p > |s| then None
    else
      match MatchAt(s, lit, p)
      case Some(v) => Some(Capture(p, v))
      case None => SearchFrom(s, lit, p + 1)
  }

  /** `re.search(r'<lit>([^"]+)"', s)`: fails exactly when no position matches; otherwise the leftmost match. */
  function Search(s: string, lit: string): (r: Option<Capture>)
    ensures r.None? <==> !Assigns(s, lit)
    ensures r.Some? ==> Matches(s, lit, r.value.start, r.value.text)
    ensures r.Some? ==> LeftmostCapture(s, lit, r.value.text)
    ensures r.Some? ==> |r.value.text| > 0 && QUOTE !in r.value.text
  {
    SearchFrom(s, lit, 0)
  }

  /** The three searches of one block; all three must succeed in this same block. */
  function FindValues(content: string): (r: Option<Values>)
    ensures r.Some? <==> Assigns(content, NOW_POWER) && Assigns(content, TODAY_ENERGY) && Assigns(content, TOTAL_ENERGY)
    ensures r.Some? ==> LeftmostCapture(content, NOW_POWER, r.value.nowPower)
    ensures r.Some? ==> LeftmostCapture(content, TODAY_ENERGY, r.value.todayEnergy)
    ensures r.Some? ==> LeftmostCapture(content, TOTAL_ENERGY, r.value.totalEnergy)
  {
    match (Search(content, NOW_POWER), Search(content, TODAY_ENERGY), Search(content, TOTAL_ENERGY))
    case (Some(p), Some(t), Some(e)) => Some(Values(p.text, t.text, e.text))
    case _ => None
  }

  /** `if script_content:` — an absent or empty block is skipped. */
  predicate Usable(block: Option<string>) {
    block.Some? && block.value != ""
  }

  /** A block from which the sample would be taken. */
  predicate Qualifies(block: Option<string>) {
    Usable(block) && FindValues(block.value).Some?
  }

  /** Block `i` is the first block that qualifies. */
  ghost predicate IsFirst(blocks: seq<Option<string>>, i: nat) {
    i < |blocks| && Qualifies(blocks[i]) && forall j :: 0 <= j < i ==> !Qualifies(blocks[j])
  }

  /** The loop over the script blocks from index `i`: the first qualifying block and its captures. */
  function FirstFrom(blocks: seq<Option<string>>, i: nat): (r: Option<(nat, Values)>)
    requires i <= |blocks|
    decreases |blocks| - i
    ensures r.Some? ==> i <= r.value.0 < |blocks| && Qualifies(blocks[r.value.0])
    ensures r.Some? ==> FindValues(blocks[r.value.0].value) == Some(r.value.1)
    ensures r.Some? ==> forall j :: i <= j < r.value.0 ==> !Qualifies(blocks[j])
    ensures r.None? ==> forall j :: i <= j < |blocks| ==> !Qualifies(blocks[j])
  {
    if i == |blocks| then None
    else if Qualifies(blocks[i]) then Some((i, FindValues(blocks[i].value).value))
    else FirstFrom(blocks, i + 1)
  }

  /**
   * The conversions of lines 207-209, in order; the first one that fails
   * raises, and nothing in the program catches the exception.
   */
  function Convert(v: Values, conv: Converters): (r: Extraction)
    ensures !r.NoData?
    ensures r.Data? <==> conv.parseInt(v.nowPower).Some? && conv.kilowattHours(v.todayEnergy).Some?
                         && conv.kilowattHours(v.totalEnergy).Some?
    ensures r.Data? ==> Some(r.sample.currentPower) == conv.parseInt(v.nowPower)
                        && Some(r.sample.todayEnergy) == conv.kilowattHours(v.todayEnergy)
                        && Some(r.sample.totalEnergy) == conv.kilowattHours(v.totalEnergy)
    ensures r.ConversionError? ==>
      || (conv.parseInt(v.nowPower).None? && r.text == v.nowPower)
      || (conv.parseInt(v.nowPower).Some? && conv.kilowattHours(v.todayEnergy).None? && r.text == v.todayEnergy)
      || (conv.parseInt(v.nowPower).Some? && conv.kilowattHours(v.todayEnergy).Some?
          && conv.kilowattHours(v.totalEnergy).None? && r.text == v.totalEnergy)
  {
    match conv.parseInt(v.nowPower)
    case None => ConversionError(v.nowPower)
    case Some(power) =>
      match conv.kilowattHours(v.todayEnergy)
      case None => ConversionError(v.todayEnergy)
      case Some(today) =>
        match conv.kilowattHours(v.totalEnergy)
        case None => ConversionError(v.totalEnergy)
        case Some(total) => Data(Sample(power, today, total))
  }

  /**
   * `getValuesFromHtml`: nothing when no block qualifies; otherwise the
   * conversion of the captures of the first qualifying block, all three
   * from that one block.
   */
  function GetValuesFromHtml(blocks: seq<Option<string>>, conv: Converters): (r: Extraction)
    ensures r.NoData? <==> forall j :: 0 <= j < |blocks| ==> !Qualifies(blocks[j])
    ensures !r.NoData? ==> exists i: nat :: IsFirst(blocks, i) && r == Convert(FindValues(blocks[i].value).value, conv)
  {
    match FirstFrom(blocks, 0)
    case None => NoData
    case Some((i, v)) =>
      assert IsFirst(blocks, i);
      Convert(v, conv)
  }
}

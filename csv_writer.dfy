/**
 * The in-memory part of CsvSummaryWriter.py: the field matrix (`FieldData`,
 * one row per time step, 13 columns), the well matrix (`WellData`, seven
 * columns per well) and the header and data rows handed to the CSV writer.
 */
module CsvWriter {
  import opened Wrappers
  import opened Series
  import opened Perforations
  import opened Wells
  import opened Summaries

  const FieldHeaders: seq<string> :=
    ["TIME",
     "FGPT", "FOPT", "FWPT",
     "FOPR", "FGPR", "FWPR",
     "FGIT", "FGIR", "FOIT",
     "FOIR", "FWIT", "FWIR"]

  const WellHeaderBase: seq<string> := ["WBHP", "WGR", "WOR", "WWR", "WGT", "WOT", "WWT"]

  /** The field series written into column `k` (1 to 12) of the field
      matrix, as a measure and a class (`true` for injectors). Column 4,
      headed FOPR, receives the gas rate and column 5, headed FGPR, the oil
      rate. */
  function FieldColumnSource(k: nat): (Measure, bool)
    requires 1 <= k < 13
  {
    match k
    case 1 => (Reservoir(Cumulative(Gas)), false)
    case 2 => (Reservoir(Cumulative(Oil)), false)
    case 3 => (Reservoir(Cumulative(Water)), false)
    case 4 => (Reservoir(Rate(Gas)), false)
    case 5 => (Reservoir(Rate(Oil)), false)
    case 6 => (Reservoir(Rate(Water)), false)
    case 7 => (Reservoir(Cumulative(Gas)), true)
    case 8 => (Reservoir(Rate(Gas)), true)
    case 9 => (Reservoir(Cumulative(Oil)), true)
    case 10 => (Reservoir(Rate(Oil)), true)
    case 11 => (Reservoir(Cumulative(Water)), true)
    case _ => (Reservoir(Rate(Water)), true)
  }

  /** Column `k` of the field matrix: the time axis, then the field series. */
  function FieldColumn(s: Summary, k: nat): (c: seq<real>)
    requires ValidSummary(s) && k < 13
    ensures |c| == |s.time|
  {
    if k == 0 then s.time
    else
      var (m, injected) := FieldColumnSource(k);
      FieldSeries(s, m, injected)
  }

  /** What a well column holds: the bottom-hole pressure or a
      reservoir-condition well total. */
  datatype WellColumnKind = BottomHolePressure | WellTotal(q: Quantity)

  function WellColumnSource(k: nat): WellColumnKind
    requires k < 7
  {
    match k
    case 0 => BottomHolePressure
    case 1 => WellTotal(Rate(Gas))
    case 2 => WellTotal(Rate(Oil))
    case 3 => WellTotal(Rate(Water))
    case 4 => WellTotal(Cumulative(Gas))
    case 5 => WellTotal(Cumulative(Oil))
    case _ => WellTotal(Cumulative(Water))
  }

  /** Column `k` (0 to 6) of a well's block in the well matrix. */
  function WellColumn(w: Well, k: nat): (c: seq<real>)
    requires ValidWell(w) && k < 7
    ensures |c| == |w.time|
  {
    match WellColumnSource(k)
    case BottomHolePressure => w.bhp
    case WellTotal(q) => Total(w, q)
  }

  // ----- Labels -----

  predicate IsDigit(c: char)
  {
    '0' as int <= c as int <= '9' as int
  }

  function DigitChar(d: nat): (c: char)
    requires d < 10
    ensures IsDigit(c)
  {
    ('0' as int + d) as char
  }

  /** `str(n)` for a well index. */
  function DecimalString(n: nat): (s: string)
    ensures |s| >= 1
    ensures forall i :: 0 <= i < |s| ==> IsDigit(s[i])
    decreases n
  {
    if n < 10 then [DigitChar(n)] else DecimalString(n / 10) + [DigitChar(n % 10)]
  }

  /** The number a string of decimal digits denotes. */
  function DecimalValue(s: string): nat
    requires forall i :: 0 <= i < |s| ==> IsDigit(s[i])
    decreases |s|
  {
    if s == [] then 0
    else
      var c := s[|s| - 1];
      assert IsDigit(c);
      DecimalValue(s[..|s| - 1]) * 10 + (c as int - '0' as int)
  }

  /** Reading the decimal suffix back gives the well index. */
  lemma {:induction false} DecimalRoundTrip(n: nat)
    ensures DecimalValue(DecimalString(n)) == n
    decreases n
  {
    if n >= 10 {
      DecimalRoundTrip(n / 10);
      var s := DecimalString(n);
      assert s[..|s| - 1] == DecimalString(n / 10);
    }
  }

  /** The seven headers of well `w`: `[h + str(w) for h in header_base]`. */
  function WellHeadersOf(w: nat): (hs: seq<string>)
    ensures |hs| == 7
  {
    seq(7, k requires 0 <= k < 7 => WellHeaderBase[k] + DecimalString(w))
  }

  /** The headers of the first `count` wells, in well order. */
  function WellHeaders(count: nat): (hs: seq<string>)
    ensures |hs| == 7 * count
  {
    if count == 0 then [] else WellHeaders(count - 1) + WellHeadersOf(count - 1)
  }

  /** Header `7w+k` is base label `k` suffixed with the decimal index `w`. */
  lemma {:induction false} WellHeadersAt(count: nat, w: nat, k: nat)
    requires w < count && k < 7
    ensures WellHeaders(count)[7 * w + k] == WellHeaderBase[k] + DecimalString(w)
  {
    if w < count - 1 {
      WellHeadersAt(count - 1, w, k);
    }
  }

  /** No two entries are equal. */
  ghost predicate Distinct(hs: seq<string>)
  {
    forall i, j :: 0 <= i < j < |hs| ==> hs[i] != hs[j]
  }

  ghost predicate NoDigits(a: string)
  {
    forall i :: 0 <= i < |a| ==> !IsDigit(a[i])
  }

  ghost predicate AllDigits(d: string)
  {
    forall i :: 0 <= i < |d| ==> IsDigit(d[i])
  }

  /** A label made of a digit-free prefix and a non-empty digit suffix
      splits in exactly one way. */
  lemma SplitLabel(a1: string, d1: string, a2: string, d2: string)
    requires NoDigits(a1) && NoDigits(a2)
    requires |d1| >= 1 && |d2| >= 1 && AllDigits(d1) && AllDigits(d2)
    requires a1 + d1 == a2 + d2
    ensures a1 == a2 && d1 == d2
  {
    var whole := a1 + d1;
    assert whole[|a1|] == d1[0];
    assert whole == a2 + d2;
    assert whole[|a2|] == d2[0];
    assert a1 == whole[..|a1|] && a2 == whole[..|a2|];
    assert d1 == whole[|a1|..] && d2 == whole[|a2|..];
  }

  /** Two well headers are equal only for the same base label and well. */
  lemma WellHeaderInjective(k1: nat, w1: nat, k2: nat, w2: nat)
    requires k1 < 7 && k2 < 7
    ensures WellHeaderBase[k1] + DecimalString(w1) == WellHeaderBase[k2] + DecimalString(w2)
            ==> k1 == k2 && w1 == w2
  {
    WellHeaderBaseShape();
    if WellHeaderBase[k1] + DecimalString(w1) == WellHeaderBase[k2] + DecimalString(w2) {
      SplitLabel(WellHeaderBase[k1], DecimalString(w1), WellHeaderBase[k2], DecimalString(w2));
      DecimalRoundTrip(w1);
      DecimalRoundTrip(w2);
    }
  }

  lemma WellHeaderBaseShape()
    ensures Distinct(WellHeaderBase)
    ensures forall k :: 0 <= k < 7 ==> NoDigits(WellHeaderBase[k])
  {
  }

  lemma FieldHeadersShape()
    ensures Distinct(FieldHeaders)
    ensures forall k :: 0 <= k < 13 ==> |FieldHeaders[k]| == 4 && !IsDigit(FieldHeaders[k][3])
  {
  }

  /** Every well label ends in a digit, the last digit of its well index. */
  lemma WellHeaderEndsInDigit(count: nat, j: nat)
    requires j < 7 * count
    ensures |WellHeaders(count)[j]| >= 1
    ensures IsDigit(WellHeaders(count)[j][|WellHeaders(count)[j]| - 1])
  {
    var w, k := j / 7, j % 7;
    WellHeadersAt(count, w, k);
    var d := DecimalString(w);
    assert WellHeaders(count)[j] == WellHeaderBase[k] + d;
    assert (WellHeaderBase[k] + d)[|WellHeaderBase[k] + d| - 1] == d[|d| - 1];
  }

  /** No two wells, and no two columns of one well, share a label. */
  lemma WellHeadersDistinct(count: nat)
    ensures Distinct(WellHeaders(count))
  {
    var hs := WellHeaders(count);
    forall i, j | 0 <= i < j < |hs|
      ensures hs[i] != hs[j]
    {
      WellHeadersAt(count, i / 7, i % 7);
      WellHeadersAt(count, j / 7, j % 7);
      WellHeaderInjective(i % 7, i / 7, j % 7, j / 7);
    }
  }

  /** Every column name of the CSV header is different from every other, so
      each column can be found by its name. */
  lemma CsvHeadersDistinct(count: nat)
    ensures Distinct(FieldHeaders + WellHeaders(count))
  {
    var hs := FieldHeaders + WellHeaders(count);
    FieldHeadersShape();
    WellHeadersDistinct(count);
    forall i, j | 0 <= i < j < |hs|
      ensures hs[i] != hs[j]
    {
      if i < 13 <= j {
        WellHeaderEndsInDigit(count, j - 13);
        assert hs[j] == WellHeaders(count)[j - 13];
      } else if 13 <= i {
        assert hs[i] == WellHeaders(count)[i - 13] && hs[j] == WellHeaders(count)[j - 13];
      }
    }
  }

  function PhaseOfLetter(c: char): Option<Phase>
  {
    if c == 'G' then Some(Gas)
    else if c == 'O' then Some(Oil)
    else if c == 'W' then Some(Water)
    else None
  }

  /** What a four-letter field label says by its letters: F, the phase
      (G, O, W), produced or injected (P, I), total or rate (T, R). */
  function FieldMnemonic(name: string): Option<(Measure, bool)>
  {
    if |name| == 4 && name[0] == 'F' && PhaseOfLetter(name[1]).Some?
       && (name[2] == 'P' || name[2] == 'I') && (name[3] == 'T' || name[3] == 'R')
    then
      var ph := PhaseOfLetter(name[1]).value;
      Some((Reservoir(if name[3] == 'T' then Cumulative(ph) else Rate(ph)), name[2] == 'I'))
    else None
  }

  /** What a well base label says by its letters: WBHP, or W, the phase
      and total or rate (T, R). */
  function WellMnemonic(name: string): Option<WellColumnKind>
  {
    if name == "WBHP" then Some(BottomHolePressure)
    else if |name| == 3 && name[0] == 'W' && PhaseOfLetter(name[1]).Some? && (name[2] == 'R' || name[2] == 'T') then
      var ph := PhaseOfLetter(name[1]).value;
      Some(WellTotal(if name[2] == 'T' then Cumulative(ph) else Rate(ph)))
    else None
  }

  /** Every field label but two names the series of its column: FOPR holds
      the gas production rate and FGPR the oil production rate, the reverse
      of what their letters say. */
  lemma FieldLabelsAgainstMnemonics()
    ensures FieldHeaders[0] == "TIME" && FieldMnemonic(FieldHeaders[0]) == None
    ensures forall k :: 1 <= k < 13 && k != 4 && k != 5 ==>
      FieldMnemonic(FieldHeaders[k]) == Some(FieldColumnSource(k))
    ensures FieldHeaders[4] == "FOPR" && FieldColumnSource(4) == (Reservoir(Rate(Gas)), false)
    ensures FieldMnemonic(FieldHeaders[4]) == Some((Reservoir(Rate(Oil)), false))
    ensures FieldHeaders[5] == "FGPR" && FieldColumnSource(5) == (Reservoir(Rate(Oil)), false)
    ensures FieldMnemonic(FieldHeaders[5]) == Some((Reservoir(Rate(Gas)), false))
  {
    forall k | 1 <= k < 13 && k != 4 && k != 5
      ensures FieldMnemonic(FieldHeaders[k]) == Some(FieldColumnSource(k))
    {
      assert k in {1, 2, 3, 6, 7, 8, 9, 10, 11, 12};
    }
  }

  /** Every well label names the series of its column. */
  lemma WellLabelsFollowMnemonics()
    ensures forall k :: 0 <= k < 7 ==> WellMnemonic(WellHeaderBase[k]) == Some(WellColumnSource(k))
  {
    forall k | 0 <= k < 7
      ensures WellMnemonic(WellHeaderBase[k]) == Some(WellColumnSource(k))
    {
      assert k in {0, 1, 2, 3, 4, 5, 6};
    }
  }

  // ----- The matrices -----

  /** `data[:, k] = col`: overwrites column `k` and nothing else. */
  method FillColumn(m: array2<real>, k: nat, col: seq<real>)
    requires k < m.Length1 && |col| == m.Length0
    modifies m
    ensures forall i, j :: 0 <= i < m.Length0 && 0 <= j < m.Length1 ==>
      m[i, j] == if j == k then col[i] else old(m[i, j])
  {
    forall i | 0 <= i < m.Length0 {
      m[i, k] := col[i];
    }
  }

  ghost predicate FieldColumnsFilled(m: array2<real>, s: Summary, upTo: nat)
    reads m
    requires ValidSummary(s) && upTo <= 13
    requires m.Length0 == |s.time| && m.Length1 == 13
  {
    forall i, j :: 0 <= i < m.Length0 && 0 <= j < upTo ==> m[i, j] == FieldColumn(s, j)[i]
  }

  /** One `self.data[:, k] = summary.<field property>` line: recomputes the
      field property and writes it into column `k`. */
  method FillFieldColumn(m: array2<real>, s: Summary, k: nat, measure: Measure, injected: bool)
    requires ValidSummary(s) && 1 <= k < 13 && FieldColumnSource(k) == (measure, injected)
    requires IsFieldProperty(measure, injected)
    requires m.Length0 == |s.time| && m.Length1 == 13
    requires FieldColumnsFilled(m, s, k)
    modifies m
    ensures FieldColumnsFilled(m, s, k + 1)
    ensures forall i, j :: 0 <= i < m.Length0 && 0 <= j < m.Length1 && j != k ==> m[i, j] == old(m[i, j])
  {
    var series := FieldAggregate(s, measure, injected);
    FillColumn(m, k, series);
  }

  class FieldData {
    var headers: seq<string>
    var data: array2<real>

    ghost predicate Valid()
      reads this
    {
      |headers| == data.Length1
    }

    /** `FieldData.__init__`: the 13 headers and a zero matrix of one row per
        time step, filled column by column. */
    constructor (s: Summary)
      requires ValidSummary(s)
      ensures Valid() && headers == FieldHeaders
      ensures fresh(data) && data.Length0 == |s.time| && data.Length1 == 13
      ensures forall i, k :: 0 <= i < |s.time| && 0 <= k < 13 ==> data[i, k] == FieldColumn(s, k)[i]
    {
      var m := new real[|s.time|, |FieldHeaders|]((_, _) => 0.0);
      FillColumn(m, 0, s.time);
      FillFieldColumn(m, s, 1, Reservoir(Cumulative(Gas)), false);
      FillFieldColumn(m, s, 2, Reservoir(Cumulative(Oil)), false);
      FillFieldColumn(m, s, 3, Reservoir(Cumulative(Water)), false);
      FillFieldColumn(m, s, 4, Reservoir(Rate(Gas)), false);
      FillFieldColumn(m, s, 5, Reservoir(Rate(Oil)), false);
      FillFieldColumn(m, s, 6, Reservoir(Rate(Water)), false);
      FillFieldColumn(m, s, 7, Reservoir(Cumulative(Gas)), true);
      FillFieldColumn(m, s, 8, Reservoir(Rate(Gas)), true);
      FillFieldColumn(m, s, 9, Reservoir(Cumulative(Oil)), true);
      FillFieldColumn(m, s, 10, Reservoir(Rate(Oil)), true);
      FillFieldColumn(m, s, 11, Reservoir(Cumulative(Water)), true);
      FillFieldColumn(m, s, 12, Reservoir(Rate(Water)), true);
      headers := FieldHeaders;
      data := m;
    }
  }

  ghost predicate WellColumnsFilled(m: array2<real>, s: Summary, wells: nat, part: nat)
    reads m
    requires ValidSummary(s) && wells <= |s.wells| && part <= 7 && (part > 0 ==> wells < |s.wells|)
    requires m.Length0 == |s.time| && m.Length1 == 7 * |s.wells|
  {
    && (forall i, w, k :: 0 <= i < m.Length0 && 0 <= w < wells && 0 <= k < 7 ==>
          m[i, 7 * w + k] == WellColumn(s.wells[w], k)[i])
    && (forall i, k :: 0 <= i < m.Length0 && 0 <= k < part ==>
          m[i, 7 * wells + k] == WellColumn(s.wells[wells], k)[i])
  }

  /** One `self.data[:, windex*7+k] = ...` line: column `k` of well `windex`. */
  method FillWellColumn(m: array2<real>, s: Summary, windex: nat, k: nat, col: seq<real>)
    requires ValidSummary(s) && windex < |s.wells| && k < 7
    requires m.Length0 == |s.time| && m.Length1 == 7 * |s.wells|
    requires col == WellColumn(s.wells[windex], k)
    requires WellColumnsFilled(m, s, windex, k)
    modifies m
    ensures WellColumnsFilled(m, s, windex, k + 1)
    ensures forall i, j :: 0 <= i < m.Length0 && 0 <= j < m.Length1 && j != 7 * windex + k ==> m[i, j] == old(m[i, j])
  {
    FillColumn(m, windex * 7 + k, col);
  }

  /** The body of the well loop for well `windex`: its seven columns, each
      series recomputed from the well as the properties do. */
  method FillWell(m: array2<real>, s: Summary, windex: nat)
    requires ValidSummary(s) && windex < |s.wells|
    requires m.Length0 == |s.time| && m.Length1 == 7 * |s.wells|
    requires WellColumnsFilled(m, s, windex, 0)
    modifies m
    ensures WellColumnsFilled(m, s, windex + 1, 0)
    ensures forall i, j :: 0 <= i < m.Length0 && 0 <= j < m.Length1 && !(7 * windex <= j < 7 * windex + 7) ==>
      m[i, j] == old(m[i, j])
  {
    FillWellColumn(m, s, windex, 0, s.wells[windex].bhp);
    FillWellTotal(m, s, windex, 1, Rate(Gas));
    FillWellTotal(m, s, windex, 2, Rate(Oil));
    FillWellTotal(m, s, windex, 3, Rate(Water));
    FillWellTotal(m, s, windex, 4, Cumulative(Gas));
    FillWellTotal(m, s, windex, 5, Cumulative(Oil));
    FillWellTotal(m, s, windex, 6, Cumulative(Water));
    assert WellColumnsFilled(m, s, windex, 7);
  }

  /** A well column holding a reservoir-condition total, recomputed from
      the well's perforations. */
  method FillWellTotal(m: array2<real>, s: Summary, windex: nat, k: nat, q: Quantity)
    requires ValidSummary(s) && windex < |s.wells| && k < 7 && WellColumnSource(k) == WellTotal(q)
    requires m.Length0 == |s.time| && m.Length1 == 7 * |s.wells|
    requires WellColumnsFilled(m, s, windex, k)
    modifies m
    ensures WellColumnsFilled(m, s, windex, k + 1)
    ensures forall i, j :: 0 <= i < m.Length0 && 0 <= j < m.Length1 && j != 7 * windex + k ==> m[i, j] == old(m[i, j])
  {
    var series := Aggregate(s.wells[windex], q);
    FillWellColumn(m, s, windex, k, series);
  }

  class WellData {
    var headers: seq<string>
    var data: array2<real>

    ghost predicate Valid()
      reads this
    {
      |headers| == data.Length1
    }

    /** `WellData.__init__`: walks the wells with the counter `windex`,
        extends the headers with the well's seven labels and fills its seven
        columns `windex*7+k`. */
    constructor (s: Summary)
      requires ValidSummary(s)
      ensures Valid() && headers == WellHeaders(|s.wells|)
      ensures fresh(data) && data.Length0 == |s.time| && data.Length1 == 7 * |s.wells|
      ensures forall i, w, k :: 0 <= i < |s.time| && 0 <= w < |s.wells| && 0 <= k < 7 ==>
        data[i, 7 * w + k] == WellColumn(s.wells[w], k)[i]
    {
      var hs: seq<string> := [];
      var m := new real[|s.time|, |WellHeaderBase| * |s.wells|]((_, _) => 0.0);
      var windex := 0;
      while windex < |s.wells|
        invariant 0 <= windex <= |s.wells|
        invariant hs == WellHeaders(windex)
        invariant WellColumnsFilled(m, s, windex, 0)
      {
        hs := hs + WellHeadersOf(windex);
        FillWell(m, s, windex);
        windex := windex + 1;
      }
      headers := hs;
      data := m;
    }
  }

  /** `data[row, :].tolist()`. */
  function RowOf(m: array2<real>, r: nat): (s: seq<real>)
    reads m
    requires r < m.Length0
    ensures |s| == m.Length1
    ensures forall c :: 0 <= c < m.Length1 ==> s[c] == m[r, c]
  {
    seq(m.Length1, c reads m requires 0 <= c < m.Length1 => m[r, c])
  }

  /** The rows handed to `csv.writer`: the concatenated headers, then per
      time step the field row followed by the well row. */
  method AssembleCsv(fieldData: FieldData, wellData: WellData) returns (header: seq<string>, rows: seq<seq<real>>)
    requires fieldData.Valid() && wellData.Valid()
    requires fieldData.data.Length0 == wellData.data.Length0
    ensures header == fieldData.headers + wellData.headers
    ensures |rows| == fieldData.data.Length0
    ensures forall r :: 0 <= r < |rows| ==> |rows[r]| == |header|
    ensures forall r, c :: 0 <= r < |rows| && 0 <= c < fieldData.data.Length1 ==>
      rows[r][c] == fieldData.data[r, c]
    ensures forall r, c :: 0 <= r < |rows| && 0 <= c < wellData.data.Length1 ==>
      rows[r][fieldData.data.Length1 + c] == wellData.data[r, c]
  {
    header := fieldData.headers + wellData.headers;
    rows := [];
    for row := 0 to fieldData.data.Length0
      invariant |rows| == row
      invariant forall r :: 0 <= r < row ==> rows[r] == RowOf(fieldData.data, r) + RowOf(wellData.data, r)
    {
      rows := rows + [RowOf(fieldData.data, row) + RowOf(wellData.data, row)];
    }
  }

  /** `CsvSummaryWriter.__init__` up to the file write: a header of 13 field
      labels and seven labels per well, and one row per time step whose every
      cell is the series its header names. */
  method CsvOutput(s: Summary) returns (header: seq<string>, rows: seq<seq<real>>)
    requires ValidSummary(s)
    ensures header == FieldHeaders + WellHeaders(|s.wells|)
    ensures |header| == 13 + 7 * |s.wells|
    ensures |rows| == |s.time|
    ensures forall r :: 0 <= r < |rows| ==> |rows[r]| == |header|
    ensures forall r, k :: 0 <= r < |rows| && 0 <= k < 13 ==> rows[r][k] == FieldColumn(s, k)[r]
    ensures forall r, w, k :: 0 <= r < |rows| && 0 <= w < |s.wells| && 0 <= k < 7 ==>
      rows[r][13 + 7 * w + k] == WellColumn(s.wells[w], k)[r]
  {
    var fieldData := new FieldData(s);
    var wellData := new WellData(s);
    header, rows := AssembleCsv(fieldData, wellData);
  }
}

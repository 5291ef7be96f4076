/** The size guide drawer (src/components/pages/Product/SizeGuide.jsx): a
    size chart whose column headers are the measurement names of its first
    row, each cell looked up in its row by header name. */
module SizeGuide {
  import opened Js
  import Lists

  /** One measurement of a size row: `measurementName` and `details_value`. */
  datatype Measurement = Measurement(name: JsVal, detailsValue: JsVal)

  /** A row of the chart; `measurements` is `None` when the row has none. */
  datatype SizeRow = SizeRow(value: JsVal, size: JsVal, measurements: Option<seq<Measurement>>)

  /** The two units of the drawer. */
  datatype Unit = Inches | Centimetres

  /** What a cell shows: a dash, the stored value, or its conversion to
      centimetres (a floating-point computation). */
  datatype Shown = Dash | Raw(v: JsVal) | Converted(v: JsVal)

  /** `measurements.map(m => m.measurementName)` */
  function Names(ms: seq<Measurement>): (names: seq<JsVal>)
    ensures |names| == |ms|
    ensures forall j :: 0 <= j < |ms| ==> names[j] == ms[j].name
  {
    seq(|ms|, j requires 0 <= j < |ms| => ms[j].name)
  }

  /** The headers the chart yields, `None` when it leaves them as they
      were: only a non-empty chart whose first row has measurements sets
      them. */
  function ExtractHeaders(rawData: seq<SizeRow>): (h: Option<seq<JsVal>>)
    ensures h.Some? <==> |rawData| > 0 && rawData[0].measurements.Some?
    ensures h.Some? ==> h.value == Names(rawData[0].measurements.value)
  {
    if |rawData| > 0 && rawData[0].measurements.Some? then Some(Names(rawData[0].measurements.value)) else None
  }

  /** `measure?.details_value` for `row.measurements.find(m => m.measurementName === header)`. */
  function CellValue(row: SizeRow, header: JsVal): (v: JsVal)
    requires row.measurements.Some?
    ensures (forall j :: 0 <= j < |row.measurements.value| ==> row.measurements.value[j].name != header) ==> v == Undefined
    ensures (exists j :: 0 <= j < |row.measurements.value| && row.measurements.value[j].name == header) ==>
      exists j :: 0 <= j < |row.measurements.value| && row.measurements.value[j].name == header
                  && v == row.measurements.value[j].detailsValue
                  && forall k :: 0 <= k < j ==> row.measurements.value[k].name != header
  {
    var found := Lists.Find(row.measurements.value, (m: Measurement) => m.name == header);
    if found.Some? then found.value.detailsValue else Undefined
  }

  /** `displayValue`: a dash for a missing or empty value, the value as it
      is in inches. */
  function DisplayValue(val: JsVal, unit: Unit): (s: Shown)
    ensures !Truthy(val) <==> s == Dash
    ensures Truthy(val) && unit == Inches ==> s == Raw(val)
  {
    if !Truthy(val) then Dash
    else if unit == Inches then Raw(val)
    else Converted(val)
  }

  /** The body of the table: one line per row, one cell per header. A row's
      `measurements` are read only inside `headers.map`, so without headers
      rows need none. */
  function Table(headers: seq<JsVal>, rows: seq<SizeRow>, unit: Unit): (t: seq<seq<Shown>>)
    requires |headers| > 0 ==> forall i :: 0 <= i < |rows| ==> rows[i].measurements.Some?
    ensures |t| == |rows|
    ensures forall i :: 0 <= i < |rows| ==> |t[i]| == |headers|
    ensures |headers| == 0 ==> forall i :: 0 <= i < |rows| ==> t[i] == []
    ensures forall i, j :: 0 <= i < |rows| && 0 <= j < |headers| ==>
      t[i][j] == DisplayValue(CellValue(rows[i], headers[j]), unit)
  {
    seq(|rows|, i requires 0 <= i < |rows| && (|headers| > 0 ==> rows[i].measurements.Some?) =>
      if |headers| == 0 then []
      else seq(|headers|, j requires 0 <= j < |headers| => DisplayValue(CellValue(rows[i], headers[j]), unit)))
  }

  /** With distinct measurement names, the first row reads back its own
      values under the headers taken from it. */
  lemma FirstRowReadsBack(row: SizeRow, j: int)
    requires row.measurements.Some? && 0 <= j < |row.measurements.value|
    requires forall a, b :: 0 <= a < b < |row.measurements.value| ==>
      row.measurements.value[a].name != row.measurements.value[b].name
    ensures CellValue(row, Names(row.measurements.value)[j]) == row.measurements.value[j].detailsValue
  {
    var ms := row.measurements.value;
    var p := (m: Measurement) => m.name == ms[j].name;
    assert p(ms[j]);
    var k := Lists.FindIndex(ms, p);
    assert k == j;
  }

  class Drawer {
    var unit: Unit
    var loading: bool
    var sizeChartData: seq<SizeRow>
    var headers: seq<JsVal>
    var measurementImages: seq<JsVal>

    constructor()
      ensures unit == Inches && loading && sizeChartData == [] && headers == [] && measurementImages == []
    {
      unit := Inches;
      loading := true;
      sizeChartData := [];
      headers := [];
      measurementImages := [];
    }

    /** `fetchData` settled with the two replies: the chart and, when it
        yields them, the headers; the images; loading ends. A chart that
        yields no headers keeps the previous ones. */
    method FetchSettled(sizeStatus: bool, rawData: seq<SizeRow>, measureStatus: bool, images: seq<JsVal>)
      modifies this
      ensures !loading && unit == old(unit)
      ensures sizeStatus ==> sizeChartData == rawData
      ensures !sizeStatus ==> sizeChartData == old(sizeChartData)
      ensures sizeStatus && ExtractHeaders(rawData).Some? ==> headers == ExtractHeaders(rawData).value
      ensures !(sizeStatus && ExtractHeaders(rawData).Some?) ==> headers == old(headers)
      ensures measureStatus ==> measurementImages == images
      ensures !measureStatus ==> measurementImages == old(measurementImages)
    {
      if sizeStatus {
        sizeChartData := rawData;
        var extracted := ExtractHeaders(rawData);
        if extracted.Some? {
          headers := extracted.value;
        }
      }
      if measureStatus {
        measurementImages := images;
      }
      loading := false;
    }

    /** Switching the unit. */
    method SetUnit(u: Unit)
      modifies this
      ensures unit == u
      ensures sizeChartData == old(sizeChartData) && headers == old(headers)
      ensures loading == old(loading) && measurementImages == old(measurementImages)
    {
      unit := u;
    }
  }
}

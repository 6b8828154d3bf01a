/**
 * The in-memory part of JsonSummaryWriter.py: the record tree that would
 * be handed to `json.dump`, a `Field` object and a `Wells` list.
 */
module JsonWriter {
  import opened Wrappers
  import opened Series
  import opened Perforations
  import opened Wells
  import opened Summaries
  import opened CsvWriter

  /** The JSON values the writer builds: integers, lists of numbers (a
      series after `.tolist()`), lists of records, and objects, which keep
      their members in insertion order as Python dictionaries do. */
  datatype Json =
    | JInt(i: int)
    | JNumbers(values: seq<real>)
    | JArray(items: seq<Json>)
    | JObject(members: seq<(string, Json)>)

  function Find(ms: seq<(string, Json)>, key: string): Option<Json>
    decreases |ms|
  {
    if ms == [] then None
    else if ms[0].0 == key then Some(ms[0].1)
    else Find(ms[1..], key)
  }

  /** The value stored under `key` in an object, `None` elsewhere. */
  function Get(j: Json, key: string): Option<Json>
  {
    if j.JObject? then Find(j.members, key) else None
  }

  function KeysOf(ms: seq<(string, Json)>): (ks: seq<string>)
    ensures |ks| == |ms|
    ensures forall i :: 0 <= i < |ms| ==> ks[i] == ms[i].0
  {
    seq(|ms|, i requires 0 <= i < |ms| => ms[i].0)
  }

  /** With distinct keys, looking a member's key up finds that member. */
  lemma {:induction false} FindAt(ms: seq<(string, Json)>, k: nat)
    requires k < |ms| && Distinct(KeysOf(ms))
    ensures Find(ms, ms[k].0) == Some(ms[k].1)
    decreases |ms|
  {
    if k > 0 {
      assert ms[0].0 == KeysOf(ms)[0] != KeysOf(ms)[k] == ms[k].0;
      assert KeysOf(ms[1..]) == KeysOf(ms)[1..];
      FindAt(ms[1..], k - 1);
    }
  }

  /** With distinct keys, every key finds its own member. */
  lemma FindEach(ms: seq<(string, Json)>, keys: seq<string>)
    requires |keys| == |ms| && Distinct(keys)
    requires forall k :: 0 <= k < |ms| ==> ms[k].0 == keys[k]
    ensures KeysOf(ms) == keys
    ensures forall k :: 0 <= k < |ms| ==> Find(ms, keys[k]) == Some(ms[k].1)
  {
    assert KeysOf(ms) == keys;
    forall k | 0 <= k < |ms|
      ensures Find(ms, keys[k]) == Some(ms[k].1)
    {
      FindAt(ms, k);
    }
  }

  /** Member `k` of the `Properties` of `FieldData.__init__`, label and
      series exactly as the source lists them: FOPR holds the gas rate and
      FGPR the oil rate. */
  function FieldEntry(s: Summary, k: nat): (string, Json)
    requires ValidSummary(s) && k < 13
  {
    match k
    case 0 => ("TIME", JNumbers(s.time))
    case 1 => ("FGPT", JNumbers(FieldSeries(s, Reservoir(Cumulative(Gas)), false)))
    case 2 => ("FOPT", JNumbers(FieldSeries(s, Reservoir(Cumulative(Oil)), false)))
    case 3 => ("FWPT", JNumbers(FieldSeries(s, Reservoir(Cumulative(Water)), false)))
    case 4 => ("FOPR", JNumbers(FieldSeries(s, Reservoir(Rate(Gas)), false)))
    case 5 => ("FGPR", JNumbers(FieldSeries(s, Reservoir(Rate(Oil)), false)))
    case 6 => ("FWPR", JNumbers(FieldSeries(s, Reservoir(Rate(Water)), false)))
    case 7 => ("FGIT", JNumbers(FieldSeries(s, Reservoir(Cumulative(Gas)), true)))
    case 8 => ("FGIR", JNumbers(FieldSeries(s, Reservoir(Rate(Gas)), true)))
    case 9 => ("FOIT", JNumbers(FieldSeries(s, Reservoir(Cumulative(Oil)), true)))
    case 10 => ("FOIR", JNumbers(FieldSeries(s, Reservoir(Rate(Oil)), true)))
    case 11 => ("FWIT", JNumbers(FieldSeries(s, Reservoir(Cumulative(Water)), true)))
    case _ => ("FWIR", JNumbers(FieldSeries(s, Reservoir(Rate(Water)), true)))
  }

  /** The `Properties` object of the field record, member by member. */
  function FieldProperties(s: Summary): (ms: seq<(string, Json)>)
    requires ValidSummary(s)
    ensures |ms| == 13
  {
    seq(13, k requires 0 <= k < 13 => FieldEntry(s, k))
  }

  /** The field record of `FieldData.__init__`. */
  function FieldObject(s: Summary): (o: Json)
    requires ValidSummary(s)
  {
    JObject([("NumWells", JInt(s.NumWells())), ("Properties", JObject(FieldProperties(s)))])
  }

  /** The field record holds the number of wells and the properties. */
  lemma FieldObjectFields(s: Summary)
    requires ValidSummary(s)
    ensures Get(FieldObject(s), "NumWells") == Some(JInt(|s.wells|))
    ensures Get(FieldObject(s), "Properties") == Some(JObject(FieldProperties(s)))
  {
    var ms, keys := FieldObject(s).members, ["NumWells", "Properties"];
    FindEach(ms, keys);
    assert Find(ms, keys[0]) == Some(ms[0].1) && Find(ms, keys[1]) == Some(ms[1].1);
  }

  lemma FieldPropertyAt(s: Summary, k: nat)
    requires ValidSummary(s) && k < 13
    ensures FieldProperties(s)[k] == (FieldHeaders[k], JNumbers(FieldColumn(s, k)))
  {
    if k < 7 {
      assert k in {0, 1, 2, 3, 4, 5, 6};
    } else {
      assert k in {7, 8, 9, 10, 11, 12};
    }
  }

  /** The two writers agree on the field: the JSON properties carry the CSV
      field headers in the same order, and each label holds the series of
      the CSV column of that name (FOPR the gas rate, FGPR the oil rate, in
      both). */
  lemma FieldPropertiesMatchCsv(s: Summary)
    requires ValidSummary(s)
    ensures KeysOf(FieldProperties(s)) == FieldHeaders
    ensures forall k :: 0 <= k < 13 ==>
      Find(FieldProperties(s), FieldHeaders[k]) == Some(JNumbers(FieldColumn(s, k)))
  {
    var ms := FieldProperties(s);
    forall k | 0 <= k < 13
      ensures ms[k] == (FieldHeaders[k], JNumbers(FieldColumn(s, k)))
    {
      FieldPropertyAt(s, k);
    }
    FieldHeadersShape();
    FindEach(ms, FieldHeaders);
  }

  /** Member `k` of the `Properties` of one entry of `WellData`: the time
      axis, then the well series in the order of the CSV well labels. */
  function WellEntry(w: Well, k: nat): (string, Json)
    requires ValidWell(w) && k < 8
  {
    match k
    case 0 => ("TIME", JNumbers(w.time))
    case 1 => ("WBHP", JNumbers(w.bhp))
    case 2 => ("WGR", JNumbers(Total(w, Rate(Gas))))
    case 3 => ("WOR", JNumbers(Total(w, Rate(Oil))))
    case 4 => ("WWR", JNumbers(Total(w, Rate(Water))))
    case 5 => ("WGT", JNumbers(Total(w, Cumulative(Gas))))
    case 6 => ("WOT", JNumbers(Total(w, Cumulative(Oil))))
    case _ => ("WWT", JNumbers(Total(w, Cumulative(Water))))
  }

  /** The `Properties` object of a well entry, member by member. */
  function WellProperties(w: Well): (ms: seq<(string, Json)>)
    requires ValidWell(w)
    ensures |ms| == 8
  {
    seq(8, k requires 0 <= k < 8 => WellEntry(w, k))
  }

  /** One entry of the `Wells` list, for a well whose injector flag is
      `isInjector`. */
  function WellObject(w: Well, isInjector: int): Json
    requires ValidWell(w)
  {
    JObject([
      ("NumPerforations", JInt(w.numPerforations)),
      ("IsInjector", JInt(isInjector)),
      ("Properties", JObject(WellProperties(w)))
    ])
  }

  /** A well entry holds its perforation count, its flag and its properties. */
  lemma WellObjectFields(w: Well, isInjector: int)
    requires ValidWell(w)
    ensures Get(WellObject(w, isInjector), "NumPerforations") == Some(JInt(|w.perforations|))
    ensures Get(WellObject(w, isInjector), "IsInjector") == Some(JInt(isInjector))
    ensures Get(WellObject(w, isInjector), "Properties") == Some(JObject(WellProperties(w)))
  {
    var ms, keys := WellObject(w, isInjector).members, ["NumPerforations", "IsInjector", "Properties"];
    FindEach(ms, keys);
    assert Find(ms, keys[0]) == Some(ms[0].1) && Find(ms, keys[1]) == Some(ms[1].1);
    assert Find(ms, keys[2]) == Some(ms[2].1);
  }

  lemma WellPropertyAt(w: Well, k: nat)
    requires ValidWell(w) && k < 7
    ensures WellProperties(w)[k + 1] == (WellHeaderBase[k], JNumbers(WellColumn(w, k)))
  {
    assert k in {0, 1, 2, 3, 4, 5, 6};
  }

  /** The two writers agree on each well: after TIME, the JSON properties
      carry the CSV well labels in the same order, and each label holds the
      series of the CSV column of that name. */
  lemma WellPropertiesMatchCsv(w: Well)
    requires ValidWell(w)
    ensures KeysOf(WellProperties(w)) == ["TIME"] + WellHeaderBase
    ensures Find(WellProperties(w), "TIME") == Some(JNumbers(w.time))
    ensures forall k :: 0 <= k < 7 ==>
      Find(WellProperties(w), WellHeaderBase[k]) == Some(JNumbers(WellColumn(w, k)))
  {
    var ms := WellProperties(w);
    forall k | 0 <= k < 7
      ensures ms[k + 1] == (WellHeaderBase[k], JNumbers(WellColumn(w, k)))
    {
      WellPropertyAt(w, k);
    }
    var labels := ["TIME"] + WellHeaderBase;
    WellPropertyLabelsDistinct();
    FindEach(ms, labels);
    forall k | 0 <= k < 7
      ensures Find(ms, WellHeaderBase[k]) == Some(JNumbers(WellColumn(w, k)))
    {
      assert labels[k + 1] == WellHeaderBase[k];
    }
  }

  lemma WellPropertyLabelsDistinct()
    ensures Distinct(["TIME"] + WellHeaderBase)
  {
    WellHeaderBaseShape();
  }

  /** `WellData.__init__`: one entry per well, in the summary's well order,
      with `IsInjector` 1 for an injector and 0 otherwise. */
  method WellObjects(s: Summary) returns (wells: seq<Json>)
    requires ValidSummary(s)
    ensures |wells| == s.NumWells()
    ensures forall w :: 0 <= w < |wells| ==>
      wells[w] == WellObject(s.wells[w], if IsInjector(s.wells[w]) then 1 else 0)
    ensures forall w :: 0 <= w < |wells| ==>
      Get(wells[w], "IsInjector") == Some(JInt(if IsInjector(s.wells[w]) then 1 else 0))
    ensures forall w :: 0 <= w < |wells| ==>
      Get(wells[w], "NumPerforations") == Some(JInt(s.wells[w].numPerforations))
  {
    wells := [];
    for w := 0 to |s.wells|
      invariant |wells| == w
      invariant forall v :: 0 <= v < w ==>
        wells[v] == WellObject(s.wells[v], if IsInjector(s.wells[v]) then 1 else 0)
    {
      var well := s.wells[w];
      var isInjector: int;
      if IsInjector(well) {
        isInjector := 1;
      } else {
        isInjector := 0;
      }
      wells := wells + [WellObject(well, isInjector)];
    }
    WellEntriesFields(s, wells);
  }

  lemma WellEntriesFields(s: Summary, wells: seq<Json>)
    requires ValidSummary(s) && |wells| == s.NumWells()
    requires forall w :: 0 <= w < |wells| ==>
      wells[w] == WellObject(s.wells[w], if IsInjector(s.wells[w]) then 1 else 0)
    ensures forall w :: 0 <= w < |wells| ==>
      Get(wells[w], "IsInjector") == Some(JInt(if IsInjector(s.wells[w]) then 1 else 0))
    ensures forall w :: 0 <= w < |wells| ==>
      Get(wells[w], "NumPerforations") == Some(JInt(s.wells[w].numPerforations))
  {
    forall w | 0 <= w < |wells|
      ensures Get(wells[w], "IsInjector") == Some(JInt(if IsInjector(s.wells[w]) then 1 else 0))
      ensures Get(wells[w], "NumPerforations") == Some(JInt(s.wells[w].numPerforations))
    {
      WellObjectFields(s.wells[w], if IsInjector(s.wells[w]) then 1 else 0);
    }
  }

  /** `JsonSummaryWriter.__init__` up to `json.dump`: the document with the
      field record and the list of well records. */
  method JsonDocument(s: Summary) returns (doc: Json)
    requires ValidSummary(s)
    ensures doc.JObject? && KeysOf(doc.members) == ["Field", "Wells"]
    ensures Get(doc, "Field") == Some(FieldObject(s))
    ensures Get(doc, "Wells").Some? && Get(doc, "Wells").value.JArray?
    ensures |Get(doc, "Wells").value.items| == s.NumWells()
    ensures forall w :: 0 <= w < s.NumWells() ==>
      Get(doc, "Wells").value.items[w] == WellObject(s.wells[w], if IsInjector(s.wells[w]) then 1 else 0)
  {
    var wells := WellObjects(s);
    doc := JObject([("Field", FieldObject(s)), ("Wells", JArray(wells))]);
    var keys := ["Field", "Wells"];
    FindEach(doc.members, keys);
    assert Find(doc.members, keys[0]) == Some(doc.members[0].1);
    assert Find(doc.members, keys[1]) == Some(doc.members[1].1);
  }
}

/** The status chart: the colour table, the normalisation of the incoming
    rows into coloured slices, the total and the per-status lookup. */
module StatusChart {
  import opened Wrappers
  import opened Text
  import opened Seqs
  import opened Sorting

  /** An incoming row `{ name, value }`. */
  datatype ChartItem = ChartItem(name: string, value: int)

  /** A processed row: the item plus its normalised name and colour. */
  datatype Slice = Slice(name: string, value: int, normalizedName: string, color: string)

  const DefaultColor: string := "#9370DB"

  /** `COLORS` */
  const Colors: map<string, string> := map[
    "Completed" := "#4CBB17", "Done" := "#4CBB17", "In Progress" := "#4169E1",
    "Not Started" := "#FF6347", "Todo" := "#FF6347", "Pending" := "#FFA500",
    "COMPLETED" := "#4CBB17", "IN_PROGRESS" := "#4169E1", "NOT_STARTED" := "#FF6347",
    "TODO" := "#FF6347", "PENDING" := "#FFA500",
    "In_Progress" := "#4169E1", "Not_Started" := "#FF6347",
    "Hoàn thành" := "#4CBB17", "Đang thực hiện" := "#4169E1",
    "Chưa bắt đầu" := "#FF6347", "Đợi xử lý" := "#FFA500",
    "default" := DefaultColor]

  const NoData: ChartItem := ChartItem("No Data", 1)

  /** `name.toUpperCase().replace(/ /g, "_")` */
  function NormalizedName(name: string): string {
    Replace(Upper(name), ' ', '_')
  }

  /** The colour of a slice: the table entry for the name, else for the
      normalised name, else for the name with spaces for underscores, else
      the default colour. */
  function SliceColor(name: string): (r: string)
    ensures r in Colors.Values
    ensures name in Colors ==> r == Colors[name]
    ensures name !in Colors && NormalizedName(name) in Colors ==> r == Colors[NormalizedName(name)]
    ensures name !in Colors && NormalizedName(name) !in Colors && Replace(name, '_', ' ') in Colors ==>
      r == Colors[Replace(name, '_', ' ')]
    ensures name !in Colors && NormalizedName(name) !in Colors && Replace(name, '_', ' ') !in Colors ==> r == DefaultColor
  {
    if name in Colors then Colors[name]
    else if NormalizedName(name) in Colors then Colors[NormalizedName(name)]
    else if Replace(name, '_', ' ') in Colors then Colors[Replace(name, '_', ' ')]
    else
      assert Colors["default"] == DefaultColor;
      DefaultColor
  }

  /** `getColorForStatus`: the name, its upper-case form, its normalised form,
      its spaced form, else the default colour. */
  function ColorForStatus(status: string): (r: string)
    ensures r in Colors.Values
    ensures status in Colors ==> r == Colors[status]
    ensures status !in Colors && Upper(status) in Colors ==> r == Colors[Upper(status)]
    ensures status !in Colors && Upper(status) !in Colors && NormalizedName(status) in Colors ==>
      r == Colors[NormalizedName(status)]
    ensures (status !in Colors && Upper(status) !in Colors && NormalizedName(status) !in Colors
             && Replace(status, '_', ' ') in Colors) ==> r == Colors[Replace(status, '_', ' ')]
    ensures (status !in Colors && Upper(status) !in Colors && NormalizedName(status) !in Colors
             && Replace(status, '_', ' ') !in Colors) ==> r == DefaultColor
  {
    if status in Colors then Colors[status]
    else if Upper(status) in Colors then Colors[Upper(status)]
    else if NormalizedName(status) in Colors then Colors[NormalizedName(status)]
    else if Replace(status, '_', ' ') in Colors then Colors[Replace(status, '_', ' ')]
    else
      assert Colors["default"] == DefaultColor;
      DefaultColor
  }

  /** `chartData`: the data, or a single "No Data" row when there is none. */
  function ChartData(data: Option<seq<ChartItem>>): (r: seq<ChartItem>)
    ensures data.None? || data.value == [] ==> r == [NoData]
    ensures data.Some? && data.value != [] ==> r == data.value
  {
    if data.Some? && |data.value| > 0 then data.value else [NoData]
  }

  predicate Positive(item: ChartItem) {
    item.value > 0
  }

  function ItemValue(item: ChartItem): int {
    item.value
  }

  function SliceValue(s: Slice): int {
    s.value
  }

  function ToSlice(item: ChartItem): Slice {
    Slice(item.name, item.value, NormalizedName(item.name), SliceColor(item.name))
  }

  function Slices(items: seq<ChartItem>): (r: seq<Slice>)
    ensures |r| == |items| && forall i :: 0 <= i < |items| ==> r[i] == ToSlice(items[i])
  {
    seq(|items|, i requires 0 <= i < |items| => ToSlice(items[i]))
  }

  /** `processedData`: nothing for missing or empty data; otherwise the rows
      with a positive value, coloured, largest value first. */
  function Processed(data: Option<seq<ChartItem>>): seq<Slice> {
    if data.None? || |data.value| == 0 then []
    else SortDesc(Slices(Filter(data.value, Positive)), SliceValue)
  }

  /** The processed slices are sorted by value, largest first; each has a
      positive value, a colour from the table and its normalised name; and
      they are exactly the coloured rows with a positive value. */
  lemma ProcessedCorrect(data: Option<seq<ChartItem>>)
    ensures data.None? || data.value == [] ==> Processed(data) == []
    ensures SortedDesc(Processed(data), SliceValue)
    ensures forall i :: 0 <= i < |Processed(data)| ==>
      Processed(data)[i].value > 0 && Processed(data)[i].color in Colors.Values &&
      Processed(data)[i].normalizedName == NormalizedName(Processed(data)[i].name)
    ensures data.Some? && data.value != [] ==>
      multiset(Processed(data)) == multiset(Slices(Filter(data.value, Positive)))
  {
    if data.Some? && data.value != [] {
      var s := Slices(Filter(data.value, Positive));
      SortDescCorrect(s, SliceValue);
      forall i | 0 <= i < |Processed(data)|
        ensures Processed(data)[i].value > 0 && Processed(data)[i].color in Colors.Values &&
                Processed(data)[i].normalizedName == NormalizedName(Processed(data)[i].name)
      {
        var x := Processed(data)[i];
        assert x in multiset(s);
        assert x in s;
        var k :| 0 <= k < |s| && s[k] == x;
        assert Filter(data.value, Positive)[k] in data.value;
      }
    }
  }

  /** `totalTasks`: the sum over the processed slices, or over the chart data when there are none. */
  function TotalTasks(processed: seq<Slice>, chartData: seq<ChartItem>): int {
    if |processed| > 0 then SumBy(processed, SliceValue) else SumBy(chartData, ItemValue)
  }

  lemma {:induction false} SlicesSum(items: seq<ChartItem>)
    ensures SumBy(Slices(items), SliceValue) == SumBy(items, ItemValue)
    decreases |items|
  {
    if items != [] {
      assert Slices(items)[1..] == Slices(items[1..]);
      SlicesSum(items[1..]);
    }
  }

  /** The total is 1 (the "No Data" row) without data, the sum of the
      positive values when there are any, and the sum of all values otherwise. */
  lemma TotalTasksOfData(data: Option<seq<ChartItem>>)
    ensures data.None? || data.value == [] ==> TotalTasks(Processed(data), ChartData(data)) == 1
    ensures data.Some? && data.value != [] && Processed(data) != [] ==>
      TotalTasks(Processed(data), ChartData(data)) == SumBy(Filter(data.value, Positive), ItemValue)
    ensures data.Some? && data.value != [] && Processed(data) == [] ==>
      TotalTasks(Processed(data), ChartData(data)) == SumBy(data.value, ItemValue)
  {
    if data.Some? && data.value != [] {
      var s := Slices(Filter(data.value, Positive));
      SortDescSum(s, SliceValue, SliceValue);
      SlicesSum(Filter(data.value, Positive));
    } else {
      assert [NoData][1..] == [];
      assert SumBy([NoData], ItemValue) == ItemValue(NoData) + SumBy([NoData][1..], ItemValue);
    }
  }

  predicate SameName(s: Slice, lowered: string) {
    Lower(s.name) == lowered
  }

  predicate SameNormalized(s: Slice, normalized: string) {
    s.normalizedName == normalized
  }

  predicate NameContains(s: Slice, lowered: string) {
    Contains(Lower(s.name), lowered)
  }

  /** The lookup behind `getStatusCount`, by the lower-cased and the normalised search name. */
  function CountBy(processed: seq<Slice>, lowered: string, normalized: string): (r: int)
    ensures (exists i :: 0 <= i < |processed| && SameName(processed[i], lowered)) ==>
      exists i :: 0 <= i < |processed| && SameName(processed[i], lowered) && r == processed[i].value
                  && forall j :: 0 <= j < i ==> !SameName(processed[j], lowered)
    ensures (forall i :: 0 <= i < |processed| ==> !SameName(processed[i], lowered) && !SameNormalized(processed[i], normalized)
                                                  && !NameContains(processed[i], lowered)) ==> r == 0
    ensures (forall i :: 0 <= i < |processed| ==> !SameName(processed[i], lowered)) &&
            (exists i :: 0 <= i < |processed| && SameNormalized(processed[i], normalized)) ==>
      exists i :: 0 <= i < |processed| && SameNormalized(processed[i], normalized) && r == processed[i].value
                  && forall j :: 0 <= j < i ==> !SameNormalized(processed[j], normalized)
    ensures (forall i :: 0 <= i < |processed| ==> !SameName(processed[i], lowered) && !SameNormalized(processed[i], normalized)) &&
            (exists i :: 0 <= i < |processed| && NameContains(processed[i], lowered)) ==>
      exists i :: 0 <= i < |processed| && NameContains(processed[i], lowered) && r == processed[i].value
                  && forall j :: 0 <= j < i ==> !NameContains(processed[j], lowered)
    ensures r == 0 || exists i :: 0 <= i < |processed| && r == processed[i].value
    // with positive values only, as the processed slices have, 0 means that nothing matched
    ensures (forall i :: 0 <= i < |processed| ==> processed[i].value > 0) && r == 0 ==>
      forall i :: 0 <= i < |processed| ==> !SameName(processed[i], lowered) && !SameNormalized(processed[i], normalized)
                                           && !NameContains(processed[i], lowered)
  {
    match FirstIndex(processed, (s: Slice) => SameName(s, lowered))
    case Some(i) => processed[i].value
    case None =>
      match FirstIndex(processed, (s: Slice) => SameNormalized(s, normalized))
      case Some(i) => processed[i].value
      case None =>
        match FirstIndex(processed, (s: Slice) => NameContains(s, lowered))
        case Some(i) => processed[i].value
        case None => 0
  }

  /** `getStatusCount`: the value of the first slice named like the status
      (ignoring case), else of the first with its normalised name, else of
      the first whose name contains it; 0 when none does. */
  function StatusCount(processed: seq<Slice>, statusName: string): int {
    CountBy(processed, Lower(statusName), NormalizedName(statusName))
  }

  /** The lookup ignores the case of the status asked for. */
  lemma StatusCountIgnoresCase(processed: seq<Slice>, statusName: string)
    ensures StatusCount(processed, Upper(statusName)) == StatusCount(processed, statusName)
  {
    LowerOfUpper(statusName);
    UpperIdempotent(statusName);
  }
}

/** The dashboard page's data handling: name lookups, the normalisation of
    the fetched tasks, the completed/active split and the per-status chart
    counts. */
module Dashboard {
  import opened Wrappers
  import opened Text
  import opened Js
  import opened Seqs
  import opened Sorting

  /** An entry of the status or priority list, `{ id, name }`; a missing
      `name` is `None`. */
  datatype Named = Named(id: JsValue, name: Option<string>)

  /** A task as the page receives it; `status` and `priority` may be an
      object, an id or missing. The remaining fields are carried along
      unchanged and are not modelled. */
  datatype ClientTask = ClientTask(id: JsValue, title: JsValue, status: JsValue, priority: JsValue)

  const Unknown: string := "Unknown"

  predicate HasId(s: Named, id: JsValue) {
    StrictEquals(s.id, id)
  }

  /** `getStatusNameById` and `getPriorityNameById`: "Unknown" without a list
      or an id or when no entry has that id, else the name of the first entry
      with that id (`None` when that entry has no name). */
  function NameById(id: JsValue, list: Option<seq<Named>>): (r: Option<string>)
    ensures list.None? || !Truthy(id) ==> r == Some(Unknown)
    ensures list.Some? && (forall i :: 0 <= i < |list.value| ==> !HasId(list.value[i], id)) ==> r == Some(Unknown)
    ensures list.Some? && Truthy(id) && (exists i :: 0 <= i < |list.value| && HasId(list.value[i], id)) ==>
      exists i :: 0 <= i < |list.value| && HasId(list.value[i], id) && r == list.value[i].name
                  && forall j :: 0 <= j < i ==> !HasId(list.value[j], id)
  {
    if list.None? || !Truthy(id) then Some(Unknown)
    else
      match FirstIndex(list.value, (s: Named) => HasId(s, id))
      case None => Some(Unknown)
      case Some(i) => list.value[i].name
  }

  // ---------------------------------------------------------------------
  // Normalisation when the page loads

  /** The status (or priority) object of a task when the page loads: an
      object is kept, an id becomes `{ id, name }` with the looked-up name,
      anything falsy becomes `{ id: null, name: default }`. */
  function LoadField(v: JsValue, list: Option<seq<Named>>, default: string): (r: JsValue)
    ensures r.Obj?
    ensures v.Obj? ==> r == v
    ensures !v.Obj? && Truthy(v) ==> r == Obj(v, NameById(v, list))
    ensures !Truthy(v) ==> r == Obj(Null, Some(default))
  {
    if v.Obj? then v
    else if Truthy(v) then Obj(v, NameById(v, list))
    else Obj(Null, Some(default))
  }

  function LoadTask(t: ClientTask, statuses: Option<seq<Named>>, priorities: Option<seq<Named>>): ClientTask {
    t.(status := LoadField(t.status, statuses, "PENDING"), priority := LoadField(t.priority, priorities, "MEDIUM"))
  }

  /** The fetched tasks after `Array.isArray`, `map` and `filter(Boolean)`:
      a reply that is not an array gives no tasks, and a null entry is dropped. */
  function LoadTasks(tasks: Option<seq<Option<ClientTask>>>, statuses: Option<seq<Named>>, priorities: Option<seq<Named>>): (r: seq<ClientTask>)
    ensures tasks.None? ==> r == []
    ensures tasks.Some? ==> r == LoadAll(tasks.value, statuses, priorities)
  {
    if tasks.None? then [] else LoadAll(tasks.value, statuses, priorities)
  }

  /** `x` is the normalisation of some non-null entry. */
  ghost predicate LoadedFrom(x: ClientTask, tasks: seq<Option<ClientTask>>, statuses: Option<seq<Named>>, priorities: Option<seq<Named>>) {
    exists t :: Some(t) in tasks && x == LoadTask(t, statuses, priorities)
  }

  /** The normalised tasks: the non-null entries, each through `LoadTask`, in order. */
  function LoadAll(tasks: seq<Option<ClientTask>>, statuses: Option<seq<Named>>, priorities: Option<seq<Named>>): (r: seq<ClientTask>)
    ensures |r| <= |tasks|
    ensures (forall j :: 0 <= j < |tasks| ==> tasks[j].Some?) ==> |r| == |tasks|
    ensures forall i :: 0 <= i < |r| ==> r[i].status.Obj? && r[i].priority.Obj?
    ensures forall i :: 0 <= i < |r| ==> LoadedFrom(r[i], tasks, statuses, priorities)
    ensures forall t :: Some(t) in tasks ==> LoadTask(t, statuses, priorities) in r
  {
    var kept := NonNull(tasks);
    var r := seq(|kept|, i requires 0 <= i < |kept| => LoadTask(kept[i], statuses, priorities));
    assert forall i :: 0 <= i < |r| ==> LoadedFrom(r[i], tasks, statuses, priorities) by {
      forall i | 0 <= i < |r|
        ensures LoadedFrom(r[i], tasks, statuses, priorities)
      {
        assert kept[i] in kept;
        assert Some(kept[i]) in tasks && r[i] == LoadTask(kept[i], statuses, priorities);
      }
    }
    assert forall t :: Some(t) in tasks ==> LoadTask(t, statuses, priorities) in r by {
      forall t | Some(t) in tasks
        ensures LoadTask(t, statuses, priorities) in r
      {
        var i :| 0 <= i < |kept| && kept[i] == t;
        assert r[i] == LoadTask(t, statuses, priorities);
      }
    }
    r
  }

  // ---------------------------------------------------------------------
  // Normalisation after a refresh

  /** An entry matches a status given by name when its name is that name,
      or is it up to case. */
  predicate NameMatches(s: Named, name: string) {
    s.name.Some? && (s.name.value == name || Upper(s.name.value) == Upper(name))
  }

  /** No entry ahead of position `i` matches the name. */
  predicate NoNameMatchBefore(list: seq<Named>, name: string, i: nat)
    requires i <= |list|
  {
    forall j :: 0 <= j < i ==> !NameMatches(list[j], name)
  }

  /** The status (or priority) object of a task after a refresh: an object is
      kept, a number becomes `{ id, name }` with the looked-up name, a string
      is kept as the name, with the id of the first entry it matches (or
      `null`), and anything else becomes `{ id: null, name: "Unknown" }`. */
  function RefreshField(v: JsValue, list: seq<Named>): (r: JsValue)
    ensures r.Obj?
    ensures v.Obj? ==> r == v
    ensures v.Num? ==> r == Obj(v, NameById(v, Some(list)))
    ensures v.Str? ==> r.name == Some(v.s)
    ensures v.Str? && r.id != Null ==> exists i :: 0 <= i < |list| && NameMatches(list[i], v.s) && r.id == list[i].id
    ensures v.Str? && (forall i :: 0 <= i < |list| ==> !NameMatches(list[i], v.s)) ==> r.id == Null
    ensures v.Str? ==> forall i :: 0 <= i < |list| && NameMatches(list[i], v.s) && NoNameMatchBefore(list, v.s, i) ==>
      r.id == list[i].id
    ensures v.Undefined? || v.Null? || v.Bool? ==> r == Obj(Null, Some(Unknown))
  {
    match v
    case Obj(_, _) => v
    case Num(_) => Obj(v, NameById(v, Some(list)))
    case Str(s) =>
      var id := match FirstIndex(list, (e: Named) => NameMatches(e, s))
                case None => Null
                case Some(i) => list[i].id;
      Obj(id, Some(s))
    case _ => Obj(Null, Some(Unknown))
  }

  function RefreshTask(t: ClientTask, statuses: seq<Named>, priorities: seq<Named>): ClientTask {
    t.(status := RefreshField(t.status, statuses), priority := RefreshField(t.priority, priorities))
  }

  /** The tasks after a refresh. There is no null filter here: a null entry
      makes reading its `status` throw, so the refresh yields nothing. */
  function RefreshTasks(tasks: Option<seq<Option<ClientTask>>>, statuses: seq<Named>, priorities: seq<Named>): (r: Option<seq<ClientTask>>)
    ensures tasks.None? ==> r == Some([])
    ensures tasks.Some? ==> (r.None? <==> exists j :: 0 <= j < |tasks.value| && tasks.value[j].None?)
    ensures r.Some? && tasks.Some? ==>
      |r.value| == |tasks.value| &&
      forall i :: 0 <= i < |r.value| ==> tasks.value[i] == Some(tasks.value[i].value) &&
                                          r.value[i] == RefreshTask(tasks.value[i].value, statuses, priorities)
  {
    if tasks.None? then Some([])
    else if exists j :: 0 <= j < |tasks.value| && tasks.value[j].None? then None
    else Some(seq(|tasks.value|, i requires 0 <= i < |tasks.value| => RefreshTask(tasks.value[i].value, statuses, priorities)))
  }

  // ---------------------------------------------------------------------
  // The completed/active split

  /** `task.status?.name` */
  function StatusName(t: ClientTask): Option<string> {
    if t.status.Obj? then t.status.name else None
  }

  /** On load a task is completed when its upper-cased status name is COMPLETED or DONE. */
  predicate LoadCompleted(t: ClientTask) {
    StatusName(t).Some? && (Upper(StatusName(t).value) == "COMPLETED" || Upper(StatusName(t).value) == "DONE")
  }

  /** The active filter on load, as written: the name is neither of the two. */
  predicate LoadActive(t: ClientTask) {
    !(StatusName(t).Some? && Upper(StatusName(t).value) == "COMPLETED")
    && !(StatusName(t).Some? && Upper(StatusName(t).value) == "DONE")
  }

  /** The split on load: every task lands in exactly one of the two lists,
      in the completed one exactly when its status name is COMPLETED or DONE. */
  lemma LoadSplitPartitions(ts: seq<ClientTask>)
    ensures multiset(Filter(ts, LoadCompleted)) + multiset(Filter(ts, LoadActive)) == multiset(ts)
    ensures |Filter(ts, LoadCompleted)| + |Filter(ts, LoadActive)| == |ts|
    ensures forall t :: t in Filter(ts, LoadCompleted) ==> LoadCompleted(t)
    ensures forall t :: t in Filter(ts, LoadActive) ==> !LoadCompleted(t)
  {
    FilterPartition(ts, LoadCompleted, LoadActive);
  }

  /** `(task.status?.name || "").toLowerCase()` */
  function LowerStatusName(t: ClientTask): string {
    Lower(StatusName(t).GetOr(""))
  }

  /** The completed filter after a refresh, as written, with all five tests. */
  predicate RefreshCompleted(t: ClientTask) {
    var n := LowerStatusName(t);
    Contains(n, "complete") || Contains(n, "completed") || Contains(n, "done") || n == "done" || n == "completed"
  }

  /** The active filter after a refresh, as written. */
  predicate RefreshActive(t: ClientTask) {
    var n := LowerStatusName(t);
    !Contains(n, "complete") && !Contains(n, "completed") && !Contains(n, "done") && n != "done" && n != "completed"
  }

  /** Three of the five tests are implied by the other two: after a refresh a
      task is completed exactly when its lower-cased status name contains
      "complete" or "done", and active exactly when it is not completed. */
  lemma RefreshCompletedIff(t: ClientTask)
    ensures RefreshCompleted(t) <==> Contains(LowerStatusName(t), "complete") || Contains(LowerStatusName(t), "done")
    ensures RefreshActive(t) <==> !RefreshCompleted(t)
  {
    var n := LowerStatusName(t);
    if Contains(n, "completed") {
      assert "complete" + "d" == "completed";
      ContainsPrefixOf(n, "complete", "d");
    }
    if n == "done" {
      ContainsSelf(n);
    }
    if n == "completed" {
      ContainsSelf(n);
      assert "complete" + "d" == "completed";
      ContainsPrefixOf(n, "complete", "d");
    }
  }

  /** The split after a refresh again puts every task in exactly one list. */
  lemma RefreshSplitPartitions(ts: seq<ClientTask>)
    ensures multiset(Filter(ts, RefreshCompleted)) + multiset(Filter(ts, RefreshActive)) == multiset(ts)
    ensures |Filter(ts, RefreshCompleted)| + |Filter(ts, RefreshActive)| == |ts|
  {
    forall i | 0 <= i < |ts| ensures RefreshActive(ts[i]) == !RefreshCompleted(ts[i]) {
      RefreshCompletedIff(ts[i]);
    }
    FilterPartition(ts, RefreshCompleted, RefreshActive);
  }

  /** A task the load split calls completed is completed after a refresh too. */
  lemma LoadCompletedStaysCompleted(t: ClientTask)
    requires LoadCompleted(t)
    ensures RefreshCompleted(t)
  {
    var n := StatusName(t).value;
    var l := LowerStatusName(t);
    if Upper(n) == "COMPLETED" {
      assert Upper("COMPLETED") == "COMPLETED";
      UpperAgreesLower(n, "COMPLETED");
      assert Lower("COMPLETED") == "completed";
      ContainsSelf(l);
    } else {
      assert Upper("DONE") == "DONE";
      UpperAgreesLower(n, "DONE");
      assert Lower("DONE") == "done";
    }
  }

  // ---------------------------------------------------------------------
  // Chart counts

  /** The `taskCounts` dictionary as its entries in insertion order; the
      counter of a key is its first entry. */
  type Counts = seq<(string, int)>

  function Keys(c: Counts): (r: seq<string>)
    ensures |r| == |c| && forall i :: 0 <= i < |c| ==> r[i] == c[i].0
  {
    seq(|c|, i requires 0 <= i < |c| => c[i].0)
  }

  function Value(e: (string, int)): int {
    e.1
  }

  /** The sum of all counters. */
  function Total(c: Counts): int {
    SumBy(c, Value)
  }

  /** The position of the first entry with key `k`. */
  function IndexOf(keys: seq<string>, k: string): (r: Option<nat>)
    ensures r.Some? ==> r.value < |keys| && keys[r.value] == k && forall j :: 0 <= j < r.value ==> keys[j] != k
    ensures r.None? <==> k !in keys
    decreases |keys|
  {
    if keys == [] then None
    else if keys[0] == k then Some(0)
    else match IndexOf(keys[1..], k)
         case None => None
         case Some(j) => Some(j + 1)
  }

  /** `taskCounts[k] = v`: an existing counter is overwritten in place, a new key is appended. */
  function Put(c: Counts, k: string, v: int): (r: Counts)
    ensures k in Keys(c) ==> Keys(r) == Keys(c)
    ensures k !in Keys(c) ==> r == c + [(k, v)]
    ensures forall x :: x in Keys(r) <==> x in Keys(c) || x == k
    ensures r[IndexOf(Keys(r), k).value].1 == v
    ensures forall i :: 0 <= i < |c| && c[i].0 != k ==> r[i] == c[i]
    ensures forall i :: 0 <= i < |r| ==> r[i].1 == v || (i < |c| && r[i] == c[i])
  {
    match IndexOf(Keys(c), k)
    case None =>
      assert Keys(c + [(k, v)]) == Keys(c) + [k];
      c + [(k, v)]
    case Some(i) =>
      assert Keys(c[i := (k, v)]) == Keys(c);
      c[i := (k, v)]
  }

  /** `taskCounts[k]++` on a key that is present. */
  function Increment(c: Counts, k: string): (r: Counts)
    requires k in Keys(c)
    ensures Keys(r) == Keys(c)
    ensures Total(r) == Total(c) + 1
    ensures forall i :: 0 <= i < |c| ==> r[i].1 == c[i].1 + (if Some(i) == IndexOf(Keys(c), k) then 1 else 0)
  {
    var i := IndexOf(Keys(c), k).value;
    SumByUpdate(c, i, (k, c[i].1 + 1), Value);
    c[i := (k, c[i].1 + 1)]
  }

  /** The counter a task with status name `s` increments, if any: `s` itself,
      else (for a name with an underscore) the name with spaces for
      underscores, else the upper-cased name with underscores for spaces. */
  function CountKey(keys: seq<string>, s: string): (r: Option<string>)
    ensures r.Some? ==> r.value in keys
    ensures s in keys ==> r == Some(s)
    ensures r.Some? && r.value != s ==>
      if '_' in s then r.value == Replace(s, '_', ' ') else r.value == Replace(Upper(s), ' ', '_')
    ensures s !in keys && '_' in s ==>
      r == if Replace(s, '_', ' ') in keys then Some(Replace(s, '_', ' ')) else None
    ensures s !in keys && '_' !in s ==>
      r == if Replace(Upper(s), ' ', '_') in keys then Some(Replace(Upper(s), ' ', '_')) else None
  {
    if s in keys then Some(s)
    else if '_' in s then
      (var alt := Replace(s, '_', ' '); if alt in keys then Some(alt) else None)
    else
      (var alt := Replace(Upper(s), ' ', '_'); if alt in keys then Some(alt) else None)
  }

  /** How one task changes the counts: a task without a status name changes nothing. */
  function Tally(c: Counts, name: Option<string>): (r: Counts)
    ensures Keys(r) == Keys(c)
  {
    if name.Some? && CountKey(Keys(c), name.value).Some? then Increment(c, CountKey(Keys(c), name.value).value) else c
  }

  /** The counts after the tasks with the given status names are tallied, in order. */
  function Counted(c: Counts, names: seq<Option<string>>): (r: Counts)
    ensures Keys(r) == Keys(c)
    ensures Total(r) == Total(c) + Matched(Keys(c), names)
    ensures forall i :: 0 <= i < |c| ==> r[i].1 >= c[i].1
    ensures forall i :: 0 <= i < |c| ==>
      r[i].1 == c[i].1 + (if IndexOf(Keys(c), c[i].0) == Some(i) then Hits(Keys(c), names, c[i].0) else 0)
    decreases |names|
  {
    if names == [] then c else Tally(Counted(c, names[..|names| - 1]), names[|names| - 1])
  }

  /** The number of tasks that increment some counter. */
  function Matched(keys: seq<string>, names: seq<Option<string>>): (r: nat)
    ensures r <= |names|
    decreases |names|
  {
    if names == [] then 0
    else
      var last := names[|names| - 1];
      Matched(keys, names[..|names| - 1]) + (if last.Some? && CountKey(keys, last.value).Some? then 1 else 0)
  }

  /** The number of tasks that increment the counter of `k`. */
  function Hits(keys: seq<string>, names: seq<Option<string>>, k: string): nat
    decreases |names|
  {
    if names == [] then 0
    else
      var last := names[|names| - 1];
      Hits(keys, names[..|names| - 1], k) + (if last.Some? && CountKey(keys, last.value) == Some(k) then 1 else 0)
  }

  /** The keys one status contributes, each with count 0: its name, the
      upper-cased name if that differs and, when `spaced` and the name has an
      underscore, the name with spaces for underscores. */
  function SeedName(c: Counts, n: string, spaced: bool): (r: Counts)
    ensures forall x :: x in Keys(r) <==> x in Keys(c) || SeedsKey(n, spaced, x)
    ensures (forall i :: 0 <= i < |c| ==> c[i].1 == 0) ==> forall i :: 0 <= i < |r| ==> r[i].1 == 0
  {
    var c1 := Put(c, n, 0);
    var c2 := if n != Upper(n) then Put(c1, Upper(n), 0) else c1;
    var r := if spaced && '_' in n then Put(c2, Replace(n, '_', ' '), 0) else c2;
    PutZeros(c, n);
    PutZeros(c1, Upper(n));
    PutZeros(c2, Replace(n, '_', ' '));
    assert forall x :: x in Keys(c2) <==> x in Keys(c) || x == n || x == Upper(n);
    r
  }

  /** Writing a 0 counter keeps every counter at 0. */
  lemma PutZeros(c: Counts, k: string)
    ensures (forall i :: 0 <= i < |c| ==> c[i].1 == 0) ==> forall i :: 0 <= i < |Put(c, k, 0)| ==> Put(c, k, 0)[i].1 == 0
  {
  }

  predicate SeedsKey(n: string, spaced: bool, k: string) {
    k == n || k == Upper(n) || (spaced && '_' in n && k == Replace(n, '_', ' '))
  }

  /** The counters seeded from the status names: exactly the keys the names
      contribute, all at 0. */
  function Seeded(names: seq<string>, spaced: bool): (r: Counts)
    ensures forall i :: 0 <= i < |r| ==> r[i].1 == 0
    ensures forall k :: k in Keys(r) <==> exists n :: n in names && SeedsKey(n, spaced, k)
    decreases |names|
  {
    if names == [] then []
    else
      var init := names[..|names| - 1];
      var n := names[|names| - 1];
      assert forall m :: m in names <==> m in init || m == n;
      SeedName(Seeded(init, spaced), n, spaced)
  }

  /** The common names added with count 0 when they are not keys yet; the
      existing counters are left as they are. */
  function WithCommon(c: Counts, common: seq<string>): (r: Counts)
    ensures |r| >= |c| && r[..|c|] == c
    ensures forall k :: k in common ==> k in Keys(r)
    ensures forall i :: |c| <= i < |r| ==> r[i].1 == 0 && r[i].0 in common
    decreases |common|
  {
    if common == [] then c
    else
      var d := WithCommon(c, common[..|common| - 1]);
      var k := common[|common| - 1];
      assert forall m :: m in common ==> m in common[..|common| - 1] || m == k;
      if k in Keys(d) then d else Put(d, k, 0)
  }

  /** The counters before any task is tallied. */
  function Seed(names: seq<string>, spaced: bool, common: seq<string>): Counts {
    WithCommon(Seeded(names, spaced), common)
  }

  /** The seeded counters: each status name, its upper-case form (and, when
      `spaced`, its spaced form) and each common name is a key, and every
      counter starts at 0. */
  lemma SeedKeys(names: seq<string>, spaced: bool, common: seq<string>)
    ensures forall n :: n in names ==> n in Keys(Seed(names, spaced, common)) && Upper(n) in Keys(Seed(names, spaced, common))
    ensures spaced ==> forall n :: n in names && '_' in n ==> Replace(n, '_', ' ') in Keys(Seed(names, spaced, common))
    ensures forall k :: k in common ==> k in Keys(Seed(names, spaced, common))
    ensures forall i :: 0 <= i < |Seed(names, spaced, common)| ==> Seed(names, spaced, common)[i].1 == 0
    ensures Total(Seed(names, spaced, common)) == 0
  {
    var s := Seeded(names, spaced);
    var c := Seed(names, spaced, common);
    assert Keys(c)[..|s|] == Keys(s);
    forall k | k in Keys(s) ensures k in Keys(c) {
      var i :| 0 <= i < |s| && Keys(s)[i] == k;
      assert Keys(c)[i] == k;
    }
    forall n | n in names ensures SeedsKey(n, spaced, n) && SeedsKey(n, spaced, Upper(n)) {
    }
    forall i | 0 <= i < |c| ensures c[i].1 == 0 {
      if i < |s| {
        assert c[i] == s[i];
      }
    }
    SumByZero(c, Value);
  }

  /** Each task increments at most one counter: from seeded counters the
      counts stay non-negative and add up to at most the number of tasks. */
  lemma CountsBounded(names: seq<string>, spaced: bool, common: seq<string>, taskNames: seq<Option<string>>)
    ensures forall i :: 0 <= i < |Counted(Seed(names, spaced, common), taskNames)| ==>
      Counted(Seed(names, spaced, common), taskNames)[i].1 >= 0
    ensures 0 <= Total(Counted(Seed(names, spaced, common), taskNames)) <= |taskNames|
  {
    var s := Seed(names, spaced, common);
    SeedKeys(names, spaced, common);
    var c := Counted(s, taskNames);
    assert |Keys(c)| == |Keys(s)|;
    assert Total(c) == Total(s) + Matched(Keys(s), taskNames);
    forall i | 0 <= i < |c|
      ensures c[i].1 >= 0
    {
      assert c[i].1 >= s[i].1 && s[i].1 == 0;
    }
  }

  /** Seeds the counters: one pass over the status names, then one over the common names. */
  method SeedCounts(names: seq<string>, spaced: bool, common: seq<string>) returns (c: Counts)
    ensures c == Seed(names, spaced, common)
  {
    c := SeedStatuses(names, spaced);
    c := AddCommon(c, common);
  }

  method SeedStatuses(names: seq<string>, spaced: bool) returns (c: Counts)
    ensures c == Seeded(names, spaced)
  {
    c := [];
    var i := 0;
    while i < |names|
      invariant 0 <= i <= |names|
      invariant c == Seeded(names[..i], spaced)
    {
      c := SeedStatus(c, names[i], spaced);
      assert names[..i + 1][..i] == names[..i];
      i := i + 1;
    }
    assert names[..i] == names;
  }

  /** The body of the seeding loop for one status name. */
  method SeedStatus(c0: Counts, n: string, spaced: bool) returns (c: Counts)
    ensures c == SeedName(c0, n, spaced)
  {
    c := Put(c0, n, 0);
    if n != Upper(n) {
      c := Put(c, Upper(n), 0);
    }
    if spaced && '_' in n {
      c := Put(c, Replace(n, '_', ' '), 0);
    }
  }

  method AddCommon(c0: Counts, common: seq<string>) returns (c: Counts)
    ensures c == WithCommon(c0, common)
  {
    c := c0;
    var j := 0;
    while j < |common|
      invariant 0 <= j <= |common|
      invariant c == WithCommon(c0, common[..j])
    {
      if common[j] !in Keys(c) {
        c := Put(c, common[j], 0);
      }
      assert common[..j + 1][..j] == common[..j];
      j := j + 1;
    }
    assert common[..j] == common;
  }

  /** Tallies the tasks one by one. */
  method Count(c0: Counts, names: seq<Option<string>>) returns (c: Counts)
    ensures c == Counted(c0, names)
  {
    c := c0;
    var i := 0;
    while i < |names|
      invariant 0 <= i <= |names|
      invariant c == Counted(c0, names[..i])
    {
      ghost var before := c;
      if names[i].Some? {
        var k := CountKey(Keys(c), names[i].value);
        if k.Some? {
          c := Increment(c, k.value);
        }
      }
      assert c == Tally(before, names[i]);
      var prefix := names[..i + 1];
      assert prefix[..i] == names[..i] && prefix[i] == names[i];
      assert Counted(c0, prefix) == Tally(Counted(c0, names[..i]), names[i]);
      i := i + 1;
    }
    assert names[..i] == names;
  }

  const LoadCommon: seq<string> := ["Completed", "In Progress", "Pending", "Not Started"]
  const RefreshCommon: seq<string> := ["Completed", "In Progress", "Pending", "Not Started", "Todo"]

  /** The names of a status list in which every entry has one. */
  function NamesOf(statuses: seq<Named>): (r: seq<string>)
    ensures |r| == |statuses| && forall i :: 0 <= i < |statuses| && statuses[i].name.Some? ==> r[i] == statuses[i].name.value
  {
    seq(|statuses|, i requires 0 <= i < |statuses| => statuses[i].name.GetOr(""))
  }

  function StatusNames(tasks: seq<ClientTask>): (r: seq<Option<string>>)
    ensures |r| == |tasks| && forall i :: 0 <= i < |tasks| ==> r[i] == StatusName(tasks[i])
  {
    seq(|tasks|, i requires 0 <= i < |tasks| => StatusName(tasks[i]))
  }

  /** The chart built when the page loads, from the status list and the
      normalised tasks. A status or a task status without a name makes the
      page's `toUpperCase`/`includes` throw, and no chart is built. */
  method LoadChart(statuses: seq<Named>, tasks: seq<ClientTask>) returns (rows: Option<Counts>)
    ensures rows.None? <==>
      (exists i :: 0 <= i < |statuses| && statuses[i].name.None?) || (exists j :: 0 <= j < |tasks| && StatusName(tasks[j]).None?)
    ensures rows.Some? ==> rows.value == Counted(Seed(NamesOf(statuses), false, LoadCommon), StatusNames(tasks))
  {
    if (exists i :: 0 <= i < |statuses| && statuses[i].name.None?) || (exists j :: 0 <= j < |tasks| && StatusName(tasks[j]).None?) {
      return None;
    }
    var c := SeedCounts(NamesOf(statuses), false, LoadCommon);
    c := Count(c, StatusNames(tasks));
    return Some(c);
  }

  /** The status names `updateChartData` seeds from: those of entries with a truthy name. */
  function TruthyNames(statuses: seq<Named>): (r: seq<string>)
    ensures forall n :: n in r <==> n != "" && exists i :: 0 <= i < |statuses| && statuses[i].name == Some(n)
    decreases |statuses|
  {
    if statuses == [] then []
    else
      var rest := TruthyNames(statuses[1..]);
      assert forall i :: 1 <= i < |statuses| ==> statuses[i] == statuses[1..][i - 1];
      if statuses[0].name.Some? && statuses[0].name.value != "" then [statuses[0].name.value] + rest else rest
  }

  /** The status name `updateChartData` counts a task under: an object's
      name, a string as it is, a number looked up in the status list; a
      null task, any other status and an empty name count nowhere. */
  function RefreshStatusName(t: Option<ClientTask>, statuses: seq<Named>): (r: Option<string>)
    ensures t.None? ==> r.None?
    ensures r.Some? ==> r.value != ""
    ensures t.Some? && t.value.status.Str? && t.value.status.s != "" ==> r == Some(t.value.status.s)
    ensures t.Some? && t.value.status.Str? && t.value.status.s == "" ==> r.None?
    ensures t.Some? && t.value.status.Obj? ==>
      r == if t.value.status.name == Some("") then None else t.value.status.name
    ensures t.Some? && t.value.status.Num? ==>
      var looked := NameById(t.value.status, Some(statuses));
      r == if looked == Some("") then None else looked
    ensures t.Some? && (t.value.status.Undefined? || t.value.status.Null? || t.value.status.Bool?) ==> r.None?
  {
    if t.None? then None
    else
      var n := match t.value.status
               case Obj(_, name) => name
               case Str(s) => Some(s)
               case Num(_) => NameById(t.value.status, Some(statuses))
               case _ => None;
      if n == Some("") then None else n
  }

  function RefreshStatusNames(tasks: seq<Option<ClientTask>>, statuses: seq<Named>): (r: seq<Option<string>>)
    ensures |r| == |tasks| && forall i :: 0 <= i < |tasks| ==> r[i] == RefreshStatusName(tasks[i], statuses)
  {
    seq(|tasks|, i requires 0 <= i < |tasks| => RefreshStatusName(tasks[i], statuses))
  }

  predicate NamedRow(e: (string, int)) {
    !IsBlank(e.0)
  }

  /** The rows shown: counters with a non-blank name, largest count first. */
  function ChartRows(c: Counts): Counts {
    SortDesc(Filter(c, NamedRow), Value)
  }

  /** `updateChartData`: nothing happens unless both inputs are arrays;
      otherwise the chart rows from the status list and the tasks. */
  method UpdateChartData(tasks: Option<seq<Option<ClientTask>>>, statuses: Option<seq<Named>>) returns (rows: Option<Counts>)
    ensures tasks.None? || statuses.None? ==> rows.None?
    ensures tasks.Some? && statuses.Some? ==>
      rows == Some(ChartRows(Counted(Seed(TruthyNames(statuses.value), true, RefreshCommon),
                                     RefreshStatusNames(tasks.value, statuses.value))))
  {
    if tasks.None? || statuses.None? {
      return None;
    }
    var c := SeedCounts(TruthyNames(statuses.value), true, RefreshCommon);
    c := Count(c, RefreshStatusNames(tasks.value, statuses.value));
    return Some(ChartRows(c));
  }

  /** The chart rows are ordered by count, largest first, are exactly the
      counters with a non-blank name, and hold no negative count. */
  lemma ChartRowsCorrect(names: seq<string>, common: seq<string>, taskNames: seq<Option<string>>)
    ensures var c := Counted(Seed(names, true, common), taskNames);
      SortedDesc(ChartRows(c), Value)
      && multiset(ChartRows(c)) == multiset(Filter(c, NamedRow))
      && forall i :: 0 <= i < |ChartRows(c)| ==> NamedRow(ChartRows(c)[i]) && ChartRows(c)[i].1 >= 0
  {
    var c := Counted(Seed(names, true, common), taskNames);
    CountsBounded(names, true, common, taskNames);
    SortDescCorrect(Filter(c, NamedRow), Value);
    forall i | 0 <= i < |ChartRows(c)| ensures NamedRow(ChartRows(c)[i]) && ChartRows(c)[i].1 >= 0 {
      var e := ChartRows(c)[i];
      assert e in multiset(Filter(c, NamedRow));
      assert e in Filter(c, NamedRow);
    }
  }
}
